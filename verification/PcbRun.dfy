/**
 * One port at work in memory: its record, and the list of its packets. Whatever operations are served, in
 * whatever order, are steps of the responder, so the probing discipline holds throughout.
 */
module PcbRun {
  import opened Basics
  import opened ServiceLists
  import opened TxProtocol
  import opened Probing
  import opened PcbRecord
  import opened PortSteps

  /** The states of a responder with this one port that are seen like this. */
  ghost function Shown(port: Port, pcb: Pcb, ready: bool, named: bool, queue: seq<Entry>, payloads: map<Id, Payload>,
                       nextId: Id, now: nat): iset<Net>
  {
    iset n: Net | Shows(n, port, pcb, ready, named, queue, payloads, nextId, now)
  }

  ghost predicate Shows(n: Net, port: Port, pcb: Pcb, ready: bool, named: bool, queue: seq<Entry>,
                        payloads: map<Id, Payload>, nextId: Id, now: nat)
  {
    && n.pcbs.Keys == {port} && n.pcbs[port] == pcb && n.ready == (if ready then {port} else {}) && n.named == named
    && n.queue == queue && n.payloads == payloads && n.nextId == nextId && n.now == now
  }

  /** What is probed is listed in a probe state only, and not without a host name. */
  ghost predicate Tidy(n: Net, port: Port) {
    port in n.pcbs && ((n.named && IsProbing(n.pcbs[port].state)) || n.pcbs[port].services == [])
  }

  /** One packet is scheduled for the port, a probe for exactly these services, and about hosts if `ip`. */
  ghost predicate OneProbe(queue: seq<Entry>, payloads: map<Id, Payload>, port: Port, services: seq<Service>, ip: bool)
  {
    var mine := Of(queue, port);
    |mine| == 1 && mine[0].id in payloads && Asks(payloads[mine[0].id], services, ip)
  }

  /** What a port with its socket looks like once a probe about hosts has been started on it. */
  lemma Started(n: Net, m: Net, port: Port, services: seq<Service>, jitter: nat, pcb: Pcb, named: bool,
                queue: seq<Entry>, payloads: map<Id, Payload>, nextId: Id, now: nat, pcb': Pcb, queue': seq<Entry>,
                payloads': map<Id, Payload>, nextId': Id)
    requires n in Shown(port, pcb, true, named, queue, payloads, nextId, now)
    requires m in Shown(port, pcb', true, named, queue', payloads', nextId', now)
    requires m == Probing.StartProbe(n, port, services, true, jitter)
    ensures if named then pcb'.state == PROBE_1 && OneProbe(queue', payloads', port, AllProbed(pcb, services), true)
            else pcb'.state == RUNNING && Of(queue', port) == []
  {
    var cleared := Cleared(queue, port.iface, port.proto);
    OfCleared(queue, port, port);
    if named {
      var at := now + ((if pcb.failed > 5 then 1000 else 120) + jitter);
      var e := Entry(nextId, at, false, port.iface, port.proto);
      OfInsert(cleared, e, port);
      assert queue' == Insert(cleared, e);
    }
  }

  /** The states that keep the discipline. */
  ghost function Sound(): iset<Net> {
    iset n: Net | Ok(n)
  }

  class Station {
    const port: Port
    const record: Record
    var ready: bool
    var named: bool
    var queue: seq<Entry>
    var payloads: map<Id, Payload>
    var nextId: Id
    var now: nat
    /** The state of the responder that all this stands for. */
    ghost var net: Net

    ghost predicate Agrees()
      reads this, record, record.services
    {
      record.Valid() && net in Shown(port, record.View(), ready, named, queue, payloads, nextId, now)
    }

    ghost predicate Valid()
      reads this, record, record.services
    {
      Agrees() && net in Sound()
    }

    constructor (port: Port)
      ensures Valid() && fresh(record) && fresh(record.services) && this.port == port && SwitchedOff(net)
    {
      this.port := port;
      record := new Record();
      ready, named, queue, payloads, nextId, now := false, false, [], map[], 0, 0;
      net := Net(map[port := Pcb(OFF, [], false, false, 0)], {}, [], map[], 0, 0, false, map[port := []], {});
      new;
      SwitchedOffIsOk(net);
    }

    // -------------------------------------------------------------- probing

    /** `mdns_priv_init_pcb_probe`. */
    method StartProbe(services: seq<Service>, ip: bool, jitter: nat)
      requires Agrees() && Tidy(net, port)
      modifies this`queue, this`payloads, this`nextId, this`net, record
      ensures Agrees() && net == Probing.StartProbe(old(net), port, services, ip, jitter) && Tidy(net, port)
      ensures record.services == old(record.services) || fresh(record.services)
    {
      ghost var pcb := record.View();
      ghost var delay := (if pcb.failed > 5 then 1000 else 120) + jitter;
      ghost var m := StartFields(net, port, services, ip, jitter, pcb, ready, named, queue, payloads, nextId, now,
                                     delay);
      queue := Cleared(queue, port.iface, port.proto);
      if named {
        ProbeNow(services, ip, jitter, m);
      } else {
        record.state, net := RUNNING, m;
      }
    }

    /** `mdns_priv_clear_tx_queue_if`. */
    method DropPackets()
      modifies this`queue
      ensures queue == Cleared(old(queue), port.iface, port.proto) && Of(queue, port) == []
    {
      OfCleared(queue, port, port);
      queue := Cleared(queue, port.iface, port.proto);
    }

    method ProbeNow(services: seq<Service>, ip: bool, jitter: nat, ghost m: Net)
      requires record.Valid() && (IsProbing(record.state) || record.len == 0)
      requires var pcb := record.View();
               var all, ms := AllProbed(pcb, services), (if pcb.failed > 5 then 1000 else 120) + jitter;
               var e := Entry(nextId, now + ms, false, port.iface, port.proto);
               m in Shown(port, Pcb(PROBE_1, all, pcb.ip || ip, true, pcb.failed), ready, named, Insert(queue, e),
                          payloads[nextId := ProbeFor(all, pcb.ip || ip)], nextId + 1, now)
      modifies this`queue, this`payloads, this`nextId, this`net, record
      ensures Agrees() && net == m && (record.services == old(record.services) || fresh(record.services))
    {
      var probe, ms := InitNamed(services, ip);
      Put(probe, ms + jitter);
      net := m;
    }

    method InitNamed(services: seq<Service>, ip: bool) returns (probe: Payload, ms: nat)
      requires record.Valid() && (IsProbing(record.state) || record.len == 0)
      modifies record
      ensures record.Valid() && (record.services == old(record.services) || fresh(record.services))
      ensures var pcb := old(record.View());
              var all := AllProbed(pcb, services);
              && record.View() == Pcb(PROBE_1, all, pcb.ip || ip, true, pcb.failed)
              && probe == ProbeFor(all, pcb.ip || ip) && ms == if pcb.failed > 5 then 1000 else 120
    {
      var wanted := new Service[|services|](i requires 0 <= i < |services| => services[i]);
      assert wanted[..] == services;
      var made;
      made, ms := record.InitProbe(true, wanted, ip);
      probe := made.value;
    }

    /** One port's turn in `mdns_priv_probe_all_pcbs`. */
    method Visit(services: seq<Service>, ip: bool, clear: bool, jitter: nat)
      requires Agrees() && Tidy(net, port)
      modifies this`queue, this`payloads, this`nextId, this`net, record
      ensures Agrees() && Tidy(net, port) && ready == old(ready)
      ensures var n := if clear then Forgotten(old(net), port) else old(net);
              net == Probing.StartProbe(n, port, services, ip, jitter)
      ensures record.services == old(record.services) || fresh(record.services)
    {
      if clear {
        ForgottenFields(net, port, record.View(), ready, named, queue, payloads, nextId, now);
        record.Forget();
        net := Forgotten(net, port);
      }
      StartProbe(services, ip, jitter);
    }

    method ProbeAll(jobs: seq<Job>, services: seq<Service>, ip: bool, clear: bool)
      requires Agrees() && Tidy(net, port)
      modifies this`queue, this`payloads, this`nextId, this`net, record
      ensures Agrees() && net == ProbeEach(old(net), jobs, services, ip, clear)
      ensures record.services == old(record.services) || fresh(record.services)
    {
      ghost var whole := ProbeEach(net, jobs, services, ip, clear);
      for i := 0 to |jobs|
        invariant Agrees() && Tidy(net, port) && ProbeEach(net, jobs[i..], services, ip, clear) == whole
        invariant record.services == old(record.services) || fresh(record.services)
      {
        assert jobs[i..][0] == jobs[i] && jobs[i..][1..] == jobs[i + 1..];
        PortsHere(net, port, record.View(), ready, named, queue, payloads, nextId, now);
        if jobs[i].port == port && ready {
          Visit(services, ip, clear, jobs[i].jitter);
        }
      }
      assert jobs[|jobs|..] == [];
    }

    /** `mdns_priv_restart_all_pcbs`, on a device that has just got a host name. */
    method RestartAll(jobs: seq<Job>, services: seq<Service>)
      requires Agrees() && Tidy(net, port)
      modifies this`queue, this`payloads, this`nextId, this`named, this`net, record
      ensures Agrees() && net == ProbeEach(Restarted(old(net)), jobs, services, true, true)
      ensures record.services == old(record.services) || fresh(record.services)
    {
      queue, named := [], true;
      net := Restarted(net);
      ProbeAll(jobs, services, true, true);
    }

    // -------------------------------------------------------------- the interface

    /** `mdns_priv_pcb_enable`. */
    method EnablePort(opens: bool, services: seq<Service>, jitter: nat)
      requires Agrees() && Tidy(net, port)
      modifies this`queue, this`payloads, this`nextId, this`ready, this`net, record
      ensures Agrees() && net == Enable(old(net), port, opens, services, jitter)
      ensures record.services == old(record.services) || fresh(record.services)
      ensures !old(ready) && !opens ==> (
                && !ready && queue == old(queue) && payloads == old(payloads)
                && record.View() == old(record.View()).(failed := 0))
      ensures (old(ready) || opens) && named ==> (
                && ready && record.state == PROBE_1
                && OneProbe(queue, payloads, port, AllProbed(old(record.View()), services), true))
      ensures (old(ready) || opens) && !named ==> ready && record.state == RUNNING && Of(queue, port) == []
    {
      OpenFields(net, port, record.View(), ready, named, queue, payloads, nextId, now);
      if !ready {
        if !opens {
          record.failed := 0;
          net := Became(net, port, net.pcbs[port].(failed := 0));
          return;
        }
        ready := true;
        net := net.(ready := net.ready + {port});
      }
      ghost var n, q, said, id := net, queue, payloads, nextId;
      StartProbe(services, true, jitter);
      Started(n, net, port, services, jitter, old(record.View()), named, q, said, id, now,
              record.View(), queue, payloads, nextId);
    }

    /** `mdns_priv_pcb_disable`, on a device with no second interface. */
    method DisablePort(opens: bool, services: seq<Service>, jitter: nat)
      requires Agrees()
      modifies this`queue, this`ready, this`net, record
      ensures Agrees() && net == Disable(old(net), port, None, opens, services, jitter)
      ensures record.services == old(record.services) || fresh(record.services)
      ensures !ready && record.state == OFF
      ensures old(ready) ==> Of(queue, port) == [] && record.View() == Pcb(OFF, [], false, false, 0)
      ensures !old(ready) ==> queue == old(queue) && record.View() == old(record.View()).(state := OFF)
    {
      CloseFields(net, port, record.View(), ready, named, queue, payloads, nextId, now);
      if ready {
        DropPackets();
        record.Deinit();
        ready := false;
        net := Deinit(net, port);
      } else {
        record.state := OFF;
        net := Became(net, port, net.pcbs[port].(state := OFF));
      }
    }

    // -------------------------------------------------------------- announcing and sending

    /** `mdns_priv_pcb_announce`. */
    method AnnounceOn(services: seq<Service>, ip: bool, jitter: nat)
      requires Agrees() && Tidy(net, port)
      modifies this`queue, this`payloads, this`nextId, this`net, record
      ensures Agrees() && net == Announce(old(net), port, services, ip, jitter)
      ensures record.services == old(record.services) || fresh(record.services)
    {
      ghost var m := AnnounceFields(net, port, services, ip, jitter, record.View(), ready, named, queue, payloads,
                                        nextId, now);
      if !ready {
        return;
      }
      if IsProbing(record.state) {
        StartProbe(services, ip, jitter);
      } else if IsAnnouncing(record.state) {
        AddTo(services, ip, m);
      } else if record.state.RUNNING? && named {
        record.state := ANNOUNCE_1;
        Put(FreshAnnouncement(services, ip), 0);
        net := m;
      }
    }

    /** More services put into the announcement that is scheduled. */
    method AddTo(services: seq<Service>, ip: bool, ghost m: Net)
      requires record.Valid()
      requires var mine, pcb := Of(queue, port), record.View();
               if mine != [] && mine[0].id in payloads && payloads[mine[0].id].Answers? then
                 m in Shown(port, pcb.(state := ANNOUNCE_1), ready, named, queue,
                            payloads[mine[0].id := WithMore(payloads[mine[0].id], services, ip)], nextId, now)
               else m in Shown(port, pcb, ready, named, queue, payloads, nextId, now)
      modifies this`payloads, this`net, record`state
      ensures Agrees() && net == m
    {
      var mine := Of(queue, port);
      if mine != [] && mine[0].id in payloads && payloads[mine[0].id].Answers? {
        payloads := payloads[mine[0].id := WithMore(payloads[mine[0].id], services, ip)];
        record.state := ANNOUNCE_1;
      }
      net := m;
    }

    /** `handle_packet` on the packet at the head of the list. */
    method SendHead()
      requires Agrees() && queue != [] && queue[0].id in payloads && PortOf(queue[0]) == port && port in net.rounds
      modifies this`queue, this`payloads, this`nextId, this`net, record
      ensures Agrees() && net == Transmit(old(net))
      ensures record.services == old(record.services) || fresh(record.services)
    {
      var e := queue[0];
      ghost var m := SendFields(net, port, record.View(), ready, named, queue, payloads, nextId, now);
      queue := queue[1..];
      if record.state.OFF? {
        net := m;
      } else {
        Handle(e, m);
      }
    }

    /** `mdns_priv_pcb_schedule_tx_packet` and what becomes of the packet just sent. */
    method Handle(e: Entry, ghost m: Net)
      requires record.Valid() && e.id in payloads && PortOf(e) == port
      requires Leaves(m, port, Fate(record.state, nextId), Turned(record.View()), ready, named, queue, e, payloads,
               nextId, now)
      modifies this`queue, this`payloads, this`nextId, this`net, record
      ensures Agrees() && net == m && (record.services == old(record.services) || fresh(record.services))
    {
      var verdict, payload := record.ScheduleTxPacket(payloads[e.id], nextId);
      match verdict {
        case Again(ms) => queue := Insert(queue, e.(sendAt := now + ms));
        case Replace(_, ms) => Put(payload, ms);
        case Drop =>
      }
      net := m;
    }

    // -------------------------------------------------------------- every run

    /** One operation, whichever it is. */
    method Perform(op: Probing.Op)
      requires Valid() && Probing.OpOk(net, op)
      modifies this`queue, this`payloads, this`nextId, this`ready, this`named, this`now, this`net,
               record, record.services
      ensures Valid() && net in After(old(net), op)
      ensures record.services == old(record.services) || fresh(record.services)
    {
      ghost var m := SoundStep(net, op);
      SoundIsTidy(net, port, record.View(), ready, named, queue, payloads, nextId, now);
      OnePort(net, op, port, record.View(), ready, named, queue, payloads, nextId, now);
      if op.ProbeOn? || op.ProbeAll? {
        PerformProbe(op, m);
      } else if op.RestartAll? || op.AnnounceOn? {
        PerformAnnounce(op, m);
      } else if op.EnablePort? || op.DisablePort? {
        PerformInterface(op, m);
      } else if op.RemoveService? || op.Send? {
        PerformOnPackets(op, m);
      } else if op.Respond? {
        PerformRespond(op, m);
      } else if op.ProbeFailed? {
        PerformFailure(op, m);
      } else {
        PerformWait(op, m);
      }
    }

    method PerformProbe(op: Probing.Op, ghost m: Net)
      requires Valid() && (op.ProbeOn? || op.ProbeAll?)
      requires Tidy(net, port) && port in net.rounds && m in After(net, op) && m in Sound()
      modifies this`queue, this`payloads, this`nextId, this`ready, this`named, this`now, this`net,
               record, record.services
      ensures Valid() && net == m && (record.services == old(record.services) || fresh(record.services))
    {
      OpHere(net, op, m, port, record.View(), ready, named, queue, payloads, nextId, now);
      match op {
        case ProbeOn(_, services, ip, jitter) => StartProbe(services, ip, jitter);
        case ProbeAll(jobs, services, ip, clear) => ProbeAll(jobs, services, ip, clear);
      }
    }

    method PerformAnnounce(op: Probing.Op, ghost m: Net)
      requires Valid() && (op.RestartAll? || op.AnnounceOn?)
      requires Tidy(net, port) && port in net.rounds && m in After(net, op) && m in Sound()
      modifies this`queue, this`payloads, this`nextId, this`ready, this`named, this`now, this`net,
               record, record.services
      ensures Valid() && net == m && (record.services == old(record.services) || fresh(record.services))
    {
      OpHere(net, op, m, port, record.View(), ready, named, queue, payloads, nextId, now);
      match op {
        case RestartAll(jobs, services) => RestartAll(jobs, services);
        case AnnounceOn(_, services, ip, jitter) => AnnounceOn(services, ip, jitter);
      }
    }

    method PerformInterface(op: Probing.Op, ghost m: Net)
      requires Valid() && (op.EnablePort? || op.DisablePort?)
      requires Tidy(net, port) && port in net.rounds && m in After(net, op) && m in Sound()
      modifies this`queue, this`payloads, this`nextId, this`ready, this`named, this`now, this`net,
               record, record.services
      ensures Valid() && net == m && (record.services == old(record.services) || fresh(record.services))
    {
      OpHere(net, op, m, port, record.View(), ready, named, queue, payloads, nextId, now);
      match op {
        case EnablePort(_, opens, services, jitter) => EnablePort(opens, services, jitter);
        case DisablePort(_, _, opens, services, jitter) => DisablePort(opens, services, jitter);
      }
    }

    method PerformOnPackets(op: Probing.Op, ghost m: Net)
      requires Valid() && (op.RemoveService? || op.Send?)
      requires Tidy(net, port) && port in net.rounds && m in After(net, op) && m in Sound()
      modifies this`queue, this`payloads, this`nextId, this`ready, this`named, this`now, this`net,
               record, record.services
      ensures Valid() && net == m && (record.services == old(record.services) || fresh(record.services))
    {
      OpHere(net, op, m, port, record.View(), ready, named, queue, payloads, nextId, now);
      match op {
        case RemoveService(service) => RemoveService(service);
        case Send => SendHead();
      }
    }

    method PerformRespond(op: Probing.Op, ghost m: Net)
      requires Valid() && op.Respond?
      requires Tidy(net, port) && port in net.rounds && m in After(net, op) && m in Sound()
      modifies this`queue, this`payloads, this`nextId, this`net, record`failed
      ensures Valid() && net == m
    {
      OpHere(net, op, m, port, record.View(), ready, named, queue, payloads, nextId, now);
      Respond(op.said, op.ms, m);
    }

    method PerformFailure(op: Probing.Op, ghost m: Net)
      requires Valid() && op.ProbeFailed?
      requires Tidy(net, port) && port in net.rounds && m in After(net, op) && m in Sound()
      modifies this`queue, this`payloads, this`nextId, this`net, record`failed
      ensures Valid() && net == m
    {
      OpHere(net, op, m, port, record.View(), ready, named, queue, payloads, nextId, now);
      CountFailure(m);
    }

    method PerformWait(op: Probing.Op, ghost m: Net)
      requires Valid() && (op.Wait?)
      requires Tidy(net, port) && port in net.rounds && m in After(net, op) && m in Sound()
      modifies this`queue, this`payloads, this`nextId, this`ready, this`named, this`now, this`net,
               record, record.services
      ensures Valid() && net == m && (record.services == old(record.services) || fresh(record.services))
    {
      OpHere(net, op, m, port, record.View(), ready, named, queue, payloads, nextId, now);
      match op {
        case Wait(ms) => Wait(ms, m);
      }
    }

    method Respond(said: Payload, ms: nat, ghost m: Net)
      requires record.Valid()
      requires m in Shown(port, record.View(), ready, named,
                          Insert(queue, Entry(nextId, now + ms, false, port.iface, port.proto)),
                          payloads[nextId := said], nextId + 1, now)
      modifies this`queue, this`payloads, this`nextId, this`net
      ensures Agrees() && net == m
    {
      Put(said, ms);
      net := m;
    }

    /** `mdns_priv_pcb_set_probe_failed`; the counter has 16 bits. */
    method CountFailure(ghost m: Net)
      requires record.Valid()
      requires var pcb := record.View();
               m in Shown(port, pcb.(failed := (pcb.failed + 1) % 0x10000), ready, named, queue, payloads, nextId, now)
      modifies this`net, record`failed
      ensures Agrees() && net == m
    {
      record.failed := (record.failed + 1) % 0x10000;
      net := m;
    }

    method Wait(ms: nat, ghost m: Net)
      requires record.Valid() && m in Shown(port, record.View(), ready, named, queue, payloads, nextId, now + ms)
      modifies this`now, this`net
      ensures Agrees() && net == m
    {
      now := now + ms;
      net := m;
    }

    /** Any operations the responder can meet, one after the other: each is its step, and the discipline holds. */
    method Serve(ops: seq<Probing.Op>)
      requires Valid() && Possible(net, ops)
      modifies this`queue, this`payloads, this`nextId, this`ready, this`named, this`now, this`net,
               record, record.services
      ensures Valid() && Probing.Runs(old(net), ops, net) && Ok(net)
    {
      ghost var n := net;
      RunHere(n);
      for i := 0 to |ops|
        invariant Valid() && Possible(net, ops[i..]) && net in Reached(n, ops[..i])
        invariant record.services == old(record.services) || fresh(record.services)
      {
        ghost var n1 := net;
        NextPossible(n1, ops, i);
        Perform(ops[i]);
        RunFurther(n, ops, i, n1, net);
      }
      assert ops[..|ops|] == ops;
    }

    // -------------------------------------------------------------- removing a service

    /** One packet's turn in `mdns_priv_remove_scheduled_service_packets`. */
    method Strip(e: Entry, service: Service)
      requires Agrees() && NoRepeats(net.pcbs[port].services) && e.id in payloads && PortOf(e) == port
      modifies this`queue, this`payloads, this`net, record, record.services
      ensures Agrees() && net == StripPacket(old(net), e, service)
      ensures record.services == old(record.services) || fresh(record.services)
    {
      ghost var n, pcb, queue0, payloads0 := net, record.View(), queue, payloads;
      var gone := AnswersGo(payloads[e.id], service);
      var asked := Check(service, gone);
      var after := StripPayload(payloads[e.id], service, asked);
      Restate(e.id, after);
      net := StripFields(n, e, service, port, pcb, ready, named, queue0, payloads0, nextId, now,
                         gone, asked, after, record.View(), queue);
    }

    method Restate(id: Id, after: Payload)
      modifies this`queue, this`payloads
      ensures payloads == old(payloads)[id := after]
      ensures queue == if Blank(after) then Without(old(queue), id) else old(queue)
    {
      payloads := payloads[id := after];
      if Blank(after) {
        queue := Without(queue, id);
      }
    }

    method Check(service: Service, gone: bool) returns (asked: bool)
      requires record.Valid() && NoRepeats(record.View().services)
      modifies record, record.services
      ensures record.Valid() && (record.services == old(record.services) || fresh(record.services))
      ensures var pcb := old(record.View());
              && record.View() == (if ready then CheckProbing(pcb, service, gone) else pcb)
              && asked == (ready && IsProbing(pcb.state) && service in pcb.services)
    {
      asked := false;
      if ready {
        asked := record.CheckProbingServices(service, gone);
      }
    }

    method StripPayload(before: Payload, service: Service, asked: bool) returns (after: Payload)
      ensures after == Stripped(before, service, asked)
    {
      after := Stripped(before, service, false);
      if asked && after.Probe? {
        var questions := RemoveQuestion(after.questions, service);
        after := after.(questions := questions);
      }
    }

    /** The turn of the first of `todo`, packets that are all still listed. */
    method Turn(e: Entry, service: Service, ghost todo: seq<Entry>, ghost whole: Net)
      requires Valid() && todo != [] && todo[0] == e && Listed(todo, queue) && DistinctIds(todo)
      requires net in LeadTo(todo, service, whole)
      modifies this`queue, this`payloads, this`net, record, record.services
      ensures Valid() && Listed(todo[1..], queue) && DistinctIds(todo[1..]) && net in LeadTo(todo[1..], service, whole)
      ensures record.services == old(record.services) || fresh(record.services)
    {
      PacketHere(net, e, service, port, record.View(), ready, named, queue, payloads, nextId, now, todo, whole);
      Strip(e, service);
      QueueHere(net, port, record.View(), ready, named, queue, payloads, nextId, now);
    }

    /** `mdns_priv_remove_scheduled_service_packets`. */
    method RemoveService(service: Service)
      requires Valid()
      modifies this`queue, this`payloads, this`net, record, record.services
      ensures Valid() && net in LeadTo([], service, StripAll(old(net), old(queue), service))
      ensures record.services == old(record.services) || fresh(record.services)
    {
      var todo := queue;
      ghost var whole := StripAll(net, todo, service);
      ListsPackets(net, port, record.View(), ready, named, queue, payloads, nextId, now);
      while todo != []
        invariant Valid() && net in LeadTo(todo, service, whole) && Listed(todo, queue) && DistinctIds(todo)
        invariant record.services == old(record.services) || fresh(record.services)
        decreases |todo|
      {
        Turn(todo[0], service, todo, whole);
        todo := todo[1..];
      }
    }

    method Put(payload: Payload, ms: nat)
      modifies this`queue, this`payloads, this`nextId
      ensures queue == Insert(old(queue), Entry(old(nextId), now + ms, false, port.iface, port.proto))
      ensures payloads == old(payloads)[old(nextId) := payload] && nextId == old(nextId) + 1
    {
      queue := Insert(queue, Entry(nextId, now + ms, false, port.iface, port.proto));
      payloads := payloads[nextId := payload];
      nextId := nextId + 1;
    }
  }

  lemma PortsHere(n: Net, port: Port, pcb: Pcb, ready: bool, named: bool, queue: seq<Entry>,
                  payloads: map<Id, Payload>, nextId: Id, now: nat)
    requires n in Shown(port, pcb, ready, named, queue, payloads, nextId, now)
    ensures forall p :: p in n.pcbs && p in n.ready <==> p == port && ready
  {
  }

  lemma OpenFields(n: Net, port: Port, pcb: Pcb, ready: bool, named: bool, queue: seq<Entry>,
                   payloads: map<Id, Payload>, nextId: Id, now: nat)
    requires n in Shown(port, pcb, ready, named, queue, payloads, nextId, now) && Tidy(n, port)
    ensures port in n.pcbs && (port in n.ready <==> ready) && n.pcbs[port] == pcb
    ensures Became(n, port, pcb.(failed := 0)) in
              Shown(port, pcb.(failed := 0), ready, named, queue, payloads, nextId, now)
    ensures var m := n.(ready := n.ready + {port});
            m in Shown(port, pcb, true, named, queue, payloads, nextId, now) && Tidy(m, port) && (ready ==> m == n)
  {
  }

  lemma CloseFields(n: Net, port: Port, pcb: Pcb, ready: bool, named: bool, queue: seq<Entry>,
                    payloads: map<Id, Payload>, nextId: Id, now: nat)
    requires n in Shown(port, pcb, ready, named, queue, payloads, nextId, now)
    ensures port in n.pcbs && (port in n.ready <==> ready) && n.pcbs[port] == pcb
    ensures Deinit(n, port) in Shown(port, Pcb(OFF, [], false, false, 0), false, named,
                                     Cleared(queue, port.iface, port.proto), payloads, nextId, now)
    ensures Became(n, port, pcb.(state := OFF)) in
              Shown(port, pcb.(state := OFF), ready, named, queue, payloads, nextId, now)
  {
  }

  /** What announcing comes to where no probe is started. */
  lemma AnnounceFields(n: Net, port: Port, services: seq<Service>, ip: bool, jitter: nat, pcb: Pcb, ready: bool,
                       named: bool, queue: seq<Entry>, payloads: map<Id, Payload>, nextId: Id, now: nat)
    returns (m: Net)
    requires n in Shown(port, pcb, ready, named, queue, payloads, nextId, now)
    ensures port in n.pcbs && m == Announce(n, port, services, ip, jitter)
    ensures !ready ==> m == n
    ensures ready && IsProbing(pcb.state) ==> m == Probing.StartProbe(n, port, services, ip, jitter)
    ensures var mine := Of(queue, port);
            ready && IsAnnouncing(pcb.state) ==>
              if mine != [] && mine[0].id in payloads && payloads[mine[0].id].Answers? then
                m in Shown(port, pcb.(state := ANNOUNCE_1), ready, named, queue,
                           payloads[mine[0].id := WithMore(payloads[mine[0].id], services, ip)], nextId, now)
              else m in Shown(port, pcb, ready, named, queue, payloads, nextId, now)
    ensures ready && pcb.state.RUNNING? && named ==>
              m in Shown(port, pcb.(state := ANNOUNCE_1), ready, named,
                         Insert(queue, Entry(nextId, now + 0, false, port.iface, port.proto)),
                         payloads[nextId := FreshAnnouncement(services, ip)], nextId + 1, now)
    ensures !IsProbing(pcb.state) && !IsAnnouncing(pcb.state) && !(pcb.state.RUNNING? && named) ==> m == n
  {
    m := Announce(n, port, services, ip, jitter);
  }

  /** What sending the packet at the head comes to. */
  lemma SendFields(n: Net, port: Port, pcb: Pcb, ready: bool, named: bool, queue: seq<Entry>,
                   payloads: map<Id, Payload>, nextId: Id, now: nat)
    returns (m: Net)
    requires n in Shown(port, pcb, ready, named, queue, payloads, nextId, now)
    requires queue != [] && queue[0].id in payloads && PortOf(queue[0]) == port && port in n.rounds
    ensures port in n.pcbs && m == Transmit(n)
    ensures pcb.state.OFF? ==> m in Shown(port, pcb, ready, named, queue[1..], payloads, nextId, now)
    ensures !pcb.state.OFF? ==>
              Leaves(m, port, Fate(pcb.state, nextId), Turned(pcb), ready, named, queue[1..], queue[0], payloads,
                     nextId, now)
  {
    m := Transmit(n);
    if !pcb.state.OFF? {
      var e := queue[0];
      var n1 := Taken(n, port, n.rounds[port] + [Sent(now, payloads[e.id])]);
      AfterFields(n1, port, pcb, ready, named, queue[1..], e, payloads, nextId, now, m);
    }
  }

  lemma AfterFields(n: Net, port: Port, pcb: Pcb, ready: bool, named: bool, queue: seq<Entry>, e: Entry,
                    payloads: map<Id, Payload>, nextId: Id, now: nat, m: Net)
    requires n in Shown(port, pcb, ready, named, queue, payloads, nextId, now) && e.id in payloads && PortOf(e) == port
    requires m == AfterSending(n, e, port, pcb, payloads[e.id])
    ensures Leaves(m, port, Fate(pcb.state, nextId), Turned(pcb), ready, named, queue, e, payloads, nextId, now)
  {
    match Fate(pcb.state, nextId)
    case Again(ms) =>
      var n1 := Resent(n, e, ms);
      BecameShown(n1, port, pcb, Turned(pcb), ready, named, Insert(queue, e.(sendAt := now + ms)), payloads, nextId,
                  now);
    case Replace(_, ms) =>
      var said := Announcement(payloads[e.id]);
      var n1 := Scheduled(n, port, said, ms);
      BecameShown(n1, port, pcb, Turned(pcb), ready, named,
                  Insert(queue, Entry(nextId, now + ms, false, port.iface, port.proto)), payloads[nextId := said],
                  nextId + 1, now);
    case Drop => BecameShown(n, port, pcb, Turned(pcb), ready, named, queue, payloads, nextId, now);
  }

  lemma BecameShown(n: Net, port: Port, pcb: Pcb, pcb': Pcb, ready: bool, named: bool, queue: seq<Entry>,
                    payloads: map<Id, Payload>, nextId: Id, now: nat)
    requires n in Shown(port, pcb, ready, named, queue, payloads, nextId, now)
    ensures Became(n, port, pcb') in Shown(port, pcb', ready, named, queue, payloads, nextId, now)
  {
  }

  /** `m` is what verdict `v` on the packet `e` leads to; `queue` is the list without it. */
  ghost predicate Leaves(m: Net, port: Port, v: Verdict, pcb: Pcb, ready: bool, named: bool, queue: seq<Entry>,
                         e: Entry, payloads: map<Id, Payload>, nextId: Id, now: nat)
  {
    match v
    case Again(ms) => m in Shown(port, pcb, ready, named, Insert(queue, e.(sendAt := now + ms)), payloads, nextId, now)
    case Replace(_, ms) =>
      e.id in payloads &&
      m in Shown(port, pcb, ready, named, Insert(queue, Entry(nextId, now + ms, false, port.iface, port.proto)),
                 payloads[nextId := Announcement(payloads[e.id])], nextId + 1, now)
    case Drop => m in Shown(port, pcb, ready, named, queue, payloads, nextId, now)
  }

  /** The states from which the turns of `todo` lead to `whole`. */
  ghost function LeadTo(todo: seq<Entry>, service: Service, whole: Net): iset<Net> {
    iset n: Net | StripAll(n, todo, service) == whole
  }

  /** Where the operation leads. */
  ghost function After(n: Net, op: Probing.Op): iset<Net> {
    iset m: Net | IsStep(n, op, m)
  }

  ghost predicate IsStep(n: Net, op: Probing.Op, m: Net) {
    Probing.OpOk(n, op) && m == Probing.Apply(n, op)
  }

  lemma SoundStep(n: Net, op: Probing.Op) returns (m: Net)
    requires n in Sound() && Probing.OpOk(n, op)
    ensures m == Probing.Apply(n, op) && m in Sound() && m in After(n, op)
  {
    StepOk(n, op);
    m := Probing.Apply(n, op);
  }

  lemma SoundIsTidy(n: Net, port: Port, pcb: Pcb, ready: bool, named: bool, queue: seq<Entry>,
                    payloads: map<Id, Payload>, nextId: Id, now: nat)
    requires n in Shown(port, pcb, ready, named, queue, payloads, nextId, now) && n in Sound()
    ensures Tidy(n, port) && port in n.rounds
  {
    FineRecord(n, port);
    assert port in Fine(n) && PortOk(n, port);
  }

  /** Each operation is one the callers may make when its turn comes. */
  ghost predicate Possible(n: Net, ops: seq<Probing.Op>)
    decreases |ops|
  {
    ops == [] || (Probing.OpOk(n, ops[0]) && Possible(Probing.Apply(n, ops[0]), ops[1..]))
  }

  /** The states the operations lead to. */
  ghost function Reached(n: Net, ops: seq<Probing.Op>): iset<Net> {
    iset m: Net | Probing.Runs(n, ops, m)
  }

  lemma RunHere(n: Net)
    ensures n in Reached(n, [])
  {
  }

  lemma NextPossible(n: Net, ops: seq<Probing.Op>, i: nat)
    requires i < |ops| && Possible(n, ops[i..])
    ensures Probing.OpOk(n, ops[i]) && forall m <- After(n, ops[i]) :: Possible(m, ops[i + 1..])
  {
    assert ops[i..][0] == ops[i] && ops[i..][1..] == ops[i + 1..];
  }

  lemma RunFurther(n: Net, ops: seq<Probing.Op>, i: nat, n1: Net, m: Net)
    requires i < |ops| && n1 in Reached(n, ops[..i]) && m in After(n1, ops[i])
    ensures m in Reached(n, ops[..i + 1])
  {
    RunsOneMore(n, ops[..i], n1, ops[i], m);
    assert ops[..i] + [ops[i]] == ops[..i + 1];
  }

  lemma {:induction false} RunsOneMore(n: Net, ops: seq<Probing.Op>, n1: Net, op: Probing.Op, m: Net)
    requires Probing.Runs(n, ops, n1) && IsStep(n1, op, m)
    ensures Probing.Runs(n, ops + [op], m)
    decreases |ops|
  {
    if ops == [] {
      assert [op][1..] == [] && ops + [op] == [op];
    } else {
      assert (ops + [op])[1..] == ops[1..] + [op];
      RunsOneMore(Probing.Apply(n, ops[0]), ops[1..], n1, op, m);
    }
  }

  /** A device with one port has no second interface to duplicate it. */
  lemma OnePort(n: Net, op: Probing.Op, port: Port, pcb: Pcb, ready: bool, named: bool, queue: seq<Entry>,
                payloads: map<Id, Payload>, nextId: Id, now: nat)
    requires n in Shown(port, pcb, ready, named, queue, payloads, nextId, now) && Probing.OpOk(n, op)
    ensures !op.Duplicate?
  {
  }

  /** On a device with one port every operation is about that port. */
  lemma OpHere(n: Net, op: Probing.Op, m: Net, port: Port, pcb: Pcb, ready: bool, named: bool, queue: seq<Entry>,
               payloads: map<Id, Payload>, nextId: Id, now: nat)
    requires n in Shown(port, pcb, ready, named, queue, payloads, nextId, now) && m in After(n, op)
    ensures port in n.pcbs && Means(n, op, m, port, pcb, ready, named, queue, payloads, nextId, now)
  {
  }

  /** What the operation comes to there. */
  ghost predicate Means(n: Net, op: Probing.Op, m: Net, port: Port, pcb: Pcb, ready: bool, named: bool,
                        queue: seq<Entry>, payloads: map<Id, Payload>, nextId: Id, now: nat)
    requires port in n.pcbs
  {
    match op
    case ProbeOn(_, services, ip, jitter) => m == Probing.StartProbe(n, port, services, ip, jitter)
    case ProbeAll(jobs, services, ip, clear) => m == ProbeEach(n, jobs, services, ip, clear)
    case RestartAll(jobs, services) => m == ProbeEach(Restarted(n), jobs, services, true, true)
    case EnablePort(_, opens, services, jitter) => m == Enable(n, port, opens, services, jitter)
    case DisablePort(_, _, opens, services, jitter) => m == Disable(n, port, None, opens, services, jitter)
    case Duplicate(_, _, _) => false
    case AnnounceOn(_, services, ip, jitter) => m == Announce(n, port, services, ip, jitter)
    case Respond(_, said, ms) =>
      m in Shown(port, pcb, ready, named, Insert(queue, Entry(nextId, now + ms, false, port.iface, port.proto)),
                 payloads[nextId := said], nextId + 1, now)
    case RemoveService(service) => m == StripAll(n, queue, service)
    case ProbeFailed(_) =>
      m in Shown(port, pcb.(failed := (pcb.failed + 1) % 0x10000), ready, named, queue, payloads, nextId, now)
    case Send =>
      && queue != [] && queue[0].id in payloads && PortOf(queue[0]) == port && port in n.rounds
      && n.queue == queue && n.payloads == payloads && m == Transmit(n)
    case Wait(ms) => m in Shown(port, pcb, ready, named, queue, payloads, nextId, now + ms)
  }

  ghost predicate Listed(todo: seq<Entry>, queue: seq<Entry>) {
    forall e <- todo :: e in queue
  }

  lemma ListsPackets(n: Net, port: Port, pcb: Pcb, ready: bool, named: bool, queue: seq<Entry>,
                     payloads: map<Id, Payload>, nextId: Id, now: nat)
    requires n in Shown(port, pcb, ready, named, queue, payloads, nextId, now) && n in Sound()
    ensures DistinctIds(queue) && n.queue == queue
  {
  }

  lemma QueueHere(n: Net, port: Port, pcb: Pcb, ready: bool, named: bool, queue: seq<Entry>,
                  payloads: map<Id, Payload>, nextId: Id, now: nat)
    requires n in Shown(port, pcb, ready, named, queue, payloads, nextId, now)
    ensures n.queue == queue
  {
  }

  /** A listed packet's turn leaves the state sound and the packets behind it listed. */
  lemma PacketHere(n: Net, e: Entry, s: Service, port: Port, pcb: Pcb, ready: bool, named: bool, queue: seq<Entry>,
                   payloads: map<Id, Payload>, nextId: Id, now: nat, todo: seq<Entry>, whole: Net)
    requires n in Shown(port, pcb, ready, named, queue, payloads, nextId, now) && n in Sound()
    requires todo != [] && todo[0] == e && Listed(todo, queue) && DistinctIds(todo)
    ensures PortOf(e) == port && e.id in payloads && e.id in n.payloads && PortOf(e) in n.pcbs
    ensures port in n.pcbs && NoRepeats(n.pcbs[port].services)
    ensures StripPacket(n, e, s) in Sound() && Listed(todo[1..], StripPacket(n, e, s).queue) && DistinctIds(todo[1..])
    ensures n in LeadTo(todo, s, whole) ==> StripPacket(n, e, s) in LeadTo(todo[1..], s, whole)
  {
    var q := ListedOk(n, e);
    FineRecord(n, port);
    StripPacketKeeps(n, e, s);
    StripPacketList(n, e, s, StripPacket(n, e, s));
  }

  /** The packet loses its last answer with the service. */
  predicate AnswersGo(p: Payload, s: Service) {
    HasAnswers(p) && !HasAnswers(Stripped(p, s, false))
  }

  /** What one packet's turn comes to: what the port asked, what the packet says then, and record and list then. */
  lemma StripFields(n: Net, e: Entry, s: Service, port: Port, pcb: Pcb, ready: bool, named: bool, queue: seq<Entry>,
                    payloads: map<Id, Payload>, nextId: Id, now: nat, gone: bool, asked: bool, after: Payload,
                    pcb': Pcb, queue': seq<Entry>) returns (m: Net)
    requires n in Shown(port, pcb, ready, named, queue, payloads, nextId, now) && e.id in payloads && PortOf(e) == port
    requires asked == (ready && IsProbing(pcb.state) && s in pcb.services)
             && after == Stripped(payloads[e.id], s, asked)
    requires gone == AnswersGo(payloads[e.id], s) && pcb' == if ready then CheckProbing(pcb, s, gone) else pcb
    requires queue' == if Blank(after) then Without(queue, e.id) else queue
    ensures port in n.pcbs && e.id in n.payloads && m == StripPacket(n, e, s)
    ensures m in Shown(port, pcb', ready, named, queue', payloads[e.id := after], nextId, now)
  {
    m := StripPacket(n, e, s);
  }

  lemma ForgottenFields(n: Net, port: Port, pcb: Pcb, ready: bool, named: bool, queue: seq<Entry>,
                        payloads: map<Id, Payload>, nextId: Id, now: nat)
    requires n in Shown(port, pcb, ready, named, queue, payloads, nextId, now)
    ensures port in n.pcbs && Tidy(Forgotten(n, port), port)
    ensures Forgotten(n, port) in
              Shown(port, pcb.(services := [], running := false), ready, named, queue, payloads, nextId, now)
  {
  }

  /** What starting a probe comes to. */
  lemma StartFields(n: Net, port: Port, services: seq<Service>, ip: bool, jitter: nat, pcb: Pcb, ready: bool,
                    named: bool, queue: seq<Entry>, payloads: map<Id, Payload>, nextId: Id, now: nat, ms: nat)
    returns (m: Net)
    requires ms == (if pcb.failed > 5 then 1000 else 120) + jitter && Tidy(n, port)
    requires n in Shown(port, pcb, ready, named, queue, payloads, nextId, now)
    ensures m == Probing.StartProbe(n, port, services, ip, jitter) && Tidy(m, port)
    ensures IsProbing(pcb.state) || pcb.services == []
    ensures var cleared := Cleared(queue, port.iface, port.proto);
            var all := AllProbed(pcb, services);
            var e := Entry(nextId, now + ms, false, port.iface, port.proto);
            if named then
              m in Shown(port, Pcb(PROBE_1, all, pcb.ip || ip, true, pcb.failed), ready, named, Insert(cleared, e),
                         payloads[nextId := ProbeFor(all, pcb.ip || ip)], nextId + 1, now)
            else m in Shown(port, pcb.(state := RUNNING), ready, named, cleared, payloads, nextId, now)
  {
    m := Probing.StartProbe(n, port, services, ip, jitter);
  }
}
