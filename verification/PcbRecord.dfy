/**
 * One entry of `s_pcbs`, changed in place as `mdns_pcb.c` changes it: the list of services being
 * probed is an array that is rebuilt, searched and shifted by loops.
 */
module PcbRecord {
  import opened Basics
  import opened ServiceLists
  import opened TxProtocol
  import opened Probing

  lemma {:induction false} FreshAppend(ss: seq<Service>, s: Service, known: seq<Service>)
    ensures Fresh(ss + [s], known) == Fresh(ss, known) + (if s in known then [] else [s])
  {
    if ss == [] {
      assert [s][1..] == [];
      assert ss + [s] == [s];
    } else {
      assert (ss + [s])[1..] == ss[1..] + [s];
      FreshAppend(ss[1..], s, known);
      var h, t, l := if ss[0] in known then [] else [ss[0]], Fresh(ss[1..], known), if s in known then [] else [s];
      assert h + (t + l) == h + t + l;
    }
  }

  /** Without repeats, taking a service out is closing the gap it leaves. */
  lemma {:induction false} RemovedAt(ss: seq<Service>, i: nat)
    requires i < |ss| && NoRepeats(ss)
    ensures Removed(ss, ss[i]) == ss[..i] + ss[i + 1..]
  {
    var h, t := ss[0], ss[1..];
    if i == 0 {
      NoRepeatsTail(ss);
      RemovedMembers(t, h);
    } else {
      assert t[i - 1] == ss[i] && h != ss[i];
      RemovedAt(t, i - 1);
      assert ss[..i] + ss[i + 1..] == [h] + (t[..i - 1] + t[i..]);
    }
  }

  /** Taking out a question is closing the gap at the first one of the kind. */
  lemma {:induction false} UnaskedAt(qs: seq<Service>, kind: nat, i: nat)
    requires i <= |qs| && (forall k :: 0 <= k < i ==> qs[k].kind != kind) && (i < |qs| ==> qs[i].kind == kind)
    ensures Unasked(qs, kind) == if i < |qs| then qs[..i] + qs[i + 1..] else qs
  {
    if i > 0 {
      UnaskedAt(qs[1..], kind, i - 1);
      assert qs == [qs[0]] + qs[1..];
    }
  }

  /** The loop of `mdns_priv_remove_scheduled_service_packets` over the questions of one packet. */
  method RemoveQuestion(questions: seq<Service>, service: Service) returns (rest: seq<Service>)
    ensures rest == Unasked(questions, service.kind)
  {
    var i := 0;
    while i < |questions| && questions[i].kind != service.kind
      invariant i <= |questions| && forall k :: 0 <= k < i ==> questions[k].kind != service.kind
    {
      i := i + 1;
    }
    UnaskedAt(questions, service.kind, i);
    rest := if i < |questions| then questions[..i] + questions[i + 1..] else questions;
  }

  class Record {
    var state: State
    var services: array<Service>
    var len: nat
    var ip: bool
    var running: bool
    var failed: nat

    ghost predicate Valid()
      reads this
    {
      len <= services.Length
    }

    ghost function View(): Pcb
      reads this, services
      requires Valid()
    {
      Pcb(state, services[..len], ip, running, failed)
    }

    constructor ()
      ensures Valid() && fresh(services) && View() == Pcb(OFF, [], false, false, 0)
    {
      state, services, len, ip, running, failed := OFF, new Service[0], 0, false, false, 0;
    }

    /** `deinit_pcb`, once the socket is closed. */
    method Deinit()
      modifies this
      ensures Valid() && fresh(services) && View() == Pcb(OFF, [], false, false, 0)
    {
      state, services, len, ip, running, failed := OFF, new Service[0], 0, false, false, 0;
    }

    /** `mdns_priv_probe_all_pcbs`, clearing what was probed; whether the host was is kept. */
    method Forget()
      requires Valid()
      modifies this
      ensures Valid() && fresh(services) && View() == old(View()).(services := [], running := false)
    {
      services, len, running := new Service[0], 0, false;
    }

    /** Is the service among those being probed? */
    method IsProbed(service: Service) returns (i: nat)
      requires Valid()
      ensures i <= len && (i < len ==> services[i] == service)
      ensures i == len <==> service !in services[..len]
    {
      i := 0;
      while i < len && services[i] != service
        invariant i <= len && forall k :: 0 <= k < i ==> services[k] != service
      {
        i := i + 1;
      }
    }

    /** The loop of `mdns_priv_init_pcb_probe` that leaves out what is being probed already. */
    method Unknown(wanted: array<Service>) returns (unknown: array<Service>, count: nat)
      requires Valid()
      ensures fresh(unknown) && count <= unknown.Length && unknown[..count] == Fresh(wanted[..], services[..len])
    {
      unknown, count := new Service[wanted.Length], 0;
      ghost var known := services[..len];
      for j := 0 to wanted.Length
        invariant count <= j && unknown[..count] == Fresh(wanted[..j], known) && known == services[..len]
                  && unknown != services
      {
        var i := IsProbed(wanted[j]);
        FreshAppend(wanted[..j], wanted[j], known);
        assert wanted[..j + 1] == wanted[..j] + [wanted[j]];
        if i == len {
          unknown[count] := wanted[j];
          count := count + 1;
        }
      }
      assert wanted[..wanted.Length] == wanted[..];
    }

    /** `init_probe_new_service`: the first `n` entries of `more` in front, those being probed behind them. */
    method InitProbeNewService(more: array<Service>, n: nat, probeIp: bool) returns (probe: Payload, ms: nat)
      requires Valid() && n <= more.Length && (IsProbing(state) || len == 0)
      modifies this
      ensures Valid() && fresh(services)
      ensures View() == Pcb(PROBE_1, more[..n] + old(services[..len]), old(ip) || probeIp, true, old(failed))
      ensures probe == ProbeFor(more[..n] + old(services[..len]), old(ip) || probeIp)
      ensures ms == if old(failed) > 5 then 1000 else 120
    {
      var total := if IsProbing(state) then n + len else n;
      var s := new Service[total];
      for i := 0 to n
        invariant s[..i] == more[..i]
        modifies s
      {
        s[i] := more[i];
      }
      for i := 0 to len
        invariant s[..n + i] == more[..n] + services[..i]
        modifies s
      {
        s[n + i] := services[i];
      }
      assert s[..total] == more[..n] + services[..len];
      var asked := ip || probeIp;
      ip, services, len, running := asked, s, total, true;
      probe := ProbeFor(s[..total], asked);
      ms := if failed > 5 then 1000 else 120;
      state := PROBE_1;
    }

    /**
     * `mdns_priv_init_pcb_probe`, apart from the list of packets: the probe to schedule and its delay without
     * jitter. Without a host name there is none, and the port just runs.
     */
    method InitProbe(named: bool, wanted: array<Service>, probeIp: bool) returns (probe: Option<Payload>, ms: nat)
      requires Valid() && (IsProbing(state) || len == 0)
      modifies this
      ensures Valid() && (services == old(services) || fresh(services))
      ensures !named ==> View() == old(View()).(state := RUNNING) && probe == None
      ensures named ==>
                var all := AllProbed(old(View()), old(wanted[..]));
                && View() == Pcb(PROBE_1, all, old(ip) || probeIp, true, old(failed))
                && probe == Some(ProbeFor(all, old(ip) || probeIp))
                && ms == if old(failed) > 5 then 1000 else 120
    {
      if !named {
        state := RUNNING;
        return None, 0;
      }
      var payload;
      if IsProbing(state) {
        var unknown, count := Unknown(wanted);
        payload, ms := InitProbeNewService(unknown, count, probeIp);
      } else {
        assert wanted[..wanted.Length] == wanted[..];
        payload, ms := InitProbeNewService(wanted, wanted.Length, probeIp);
      }
      probe := Some(payload);
    }

    /** The loop that closes the gap at `i`. */
    method CloseGap(i: nat)
      requires Valid() && i < len
      modifies this`len, services
      ensures Valid() && len == old(len) - 1 && services[..len] == old(services[..i] + services[i + 1..len])
    {
      ghost var before := services[..len];
      var n := i + 1;
      while n < len
        invariant i < n <= len && len == |before| && len == old(len) && Valid()
        invariant forall k :: 0 <= k < i ==> services[k] == before[k]
        invariant forall k :: i <= k < n - 1 ==> services[k] == before[k + 1]
        invariant forall k :: n - 1 < k < len ==> services[k] == before[k]
      {
        services[n - 1] := services[n];
        n := n + 1;
      }
      len := len - 1;
      assert services[..len] == before[..i] + before[i + 1..];
    }

    /** `mdns_priv_pcb_check_probing_services`. */
    method CheckProbingServices(service: Service, removedAnswers: bool) returns (removeQuestions: bool)
      requires Valid() && NoRepeats(services[..len])
      modifies this, services
      ensures Valid() && (services == old(services) || fresh(services))
      ensures View() == CheckProbing(old(View()), service, removedAnswers)
      ensures removeQuestions <==> IsProbing(old(state)) && service in old(services[..len])
    {
      ghost var before := services[..len];
      if IsProbing(state) {
        var i := IsProbed(service);
        if i < len {
          RemovedAt(before, i);
          if len > 1 {
            CloseGap(i);
          } else {
            len, services := 0, new Service[0];
            if !ip {
              running, state := false, RUNNING;
            }
          }
          return true;
        }
      } else if IsAnnouncing(state) {
        if removedAnswers {
          state := RUNNING;
        }
      }
      removeQuestions := false;
    }

    /**
     * `mdns_priv_pcb_schedule_tx_packet`: what becomes of the packet just sent. It is dropped, scheduled
     * again, or replaced by the announcement made from it.
     */
    method ScheduleTxPacket(said: Payload, id: Id) returns (verdict: Verdict, payload: Payload)
      requires Valid()
      modifies this
      ensures Valid() && (services == old(services) || fresh(services))
      ensures View() == Turned(old(View())) && verdict == Fate(old(state), id)
      ensures payload == if old(state).PROBE_3? then Announcement(said) else said
    {
      payload := said;
      match state {
        case PROBE_1 | PROBE_2 =>
          verdict := Again(PROBE_GAP);
          state := Next(state);
        case PROBE_3 =>
          payload := Announcement(said);
          running, ip, len, failed := false, false, 0, 0;
          services := new Service[0];
          verdict := Replace(id, PROBE_GAP);
          state := ANNOUNCE_1;
        case ANNOUNCE_1 | ANNOUNCE_2 =>
          verdict := Again(1000);
          state := Next(state);
        case ANNOUNCE_3 =>
          state := RUNNING;
          verdict := Drop;
        case _ =>
          verdict := Drop;
      }
    }
  }
}
