/**
 * The relay's tasks as they are written, with loops over shared variables. Between any two accesses of
 * the worker the other tasks may act; whatever the outcome, it is a run of the step machine.
 */
module RelayTask {
  import opened Basics
  import opened Relay

  lemma {:induction false} RunAppend(s: State, ops: seq<Op>, op: Op)
    ensures Run(s, ops + [op]) == Apply(Run(s, ops), op)
    decreases |ops|
  {
    if ops == [] {
      assert [] + [op] == [op] && [op][1..] == [];
    } else {
      assert (ops + [op])[1..] == ops[1..] + [op];
      RunAppend(Apply(s, ops[0]), ops[1..], op);
    }
  }

  class Task {
    var abort: bool
    var active: bool
    var phase: Phase
    var started: Option<nat>
    var cfg: Config
    var queue: seq<Message>
    var events: seq<Event>
    var now: nat

    /** Where the worker is, what the theorems count, and the run that led here. */
    ghost var pc: Pc
    ghost var writes: nat
    ghost var chunks: nat
    ghost var onMs: nat
    ghost var offMs: nat
    ghost const origin: State
    ghost var ops: seq<Op>

    ghost function View(): State
      reads this
    {
      State(pc, abort, active, phase, started, cfg, queue, events, now, writes, chunks, onMs, offMs)
    }

    ghost predicate Valid()
      reads this
    {
      Inv(origin) && Run(origin, ops) == View()
    }

    /** `ls_relay_init`, once the pin is set up. */
    constructor (cfg: Config)
      ensures Valid() && pc.Waiting? && !active && events == [] && this.cfg == cfg
    {
      abort, active, phase, started, this.cfg, queue, events, now := false, false, IDLE, None, cfg, [], [], 0;
      pc, writes, chunks, onMs, offMs, ops := Waiting, 0, 0, 0, 0, [];
      origin := State(Waiting, false, false, IDLE, None, cfg, [], [], 0, 0, 0, 0, 0);
    }

    /** The step just made goes on record. */
    ghost method Record(before: State, op: Op)
      requires Inv(origin) && Run(origin, ops) == before && View() == Apply(before, op)
      modifies this`ops
      ensures Valid() && View() == old(View())
    {
      RunAppend(origin, ops, op);
      ops := ops + [op];
    }

    // -------------------------------------------------------------- the other tasks

    method StoreAbort()
      requires Valid()
      modifies this`abort, this`ops
      ensures Valid() && abort
    {
      ghost var before := View();
      abort := true;
      Record(before, RaiseAbort);
    }

    method WriteIdle()
      requires Valid()
      modifies this`active, this`ops
      ensures Valid() && !active
    {
      ghost var before := View();
      active := false;
      Record(before, DriveIdle);
    }

    method StorePhaseIdle()
      requires Valid()
      modifies this`phase, this`started, this`ops
      ensures Valid() && phase.IDLE? && started.None?
    {
      ghost var before := View();
      phase, started := IDLE, None;
      Record(before, ForceIdlePhase);
    }

    method StoreConfig(c: Config)
      requires Valid()
      modifies this`cfg, this`ops
      ensures Valid() && cfg == c
    {
      ghost var before := View();
      cfg := c;
      Record(before, Configure(c));
    }

    method Send(message: Message)
      requires Valid()
      modifies this`queue, this`ops
      ensures Valid() && queue == old(queue) + [message]
    {
      ghost var before := View();
      queue := queue + [message];
      Record(before, Enqueue(message));
    }

    /** `cli_abort`: refused when nothing fires. */
    method CliAbort() returns (ok: bool)
      requires Valid()
      modifies this`abort, this`ops
      ensures Valid() && ok == !phase.IDLE? && abort == (old(abort) || ok)
    {
      if phase.IDLE? {
        return false;
      }
      StoreAbort();
      ok := true;
    }

    /** `cli_off`: the line is driven idle in any case. */
    method CliOff()
      requires Valid()
      modifies this`abort, this`active, this`ops
      ensures Valid() && abort == (old(abort) || !phase.IDLE?) && !active
    {
      if !phase.IDLE? {
        StoreAbort();
      }
      WriteIdle();
    }

    /** The handler of `timer.triggered`: nothing is queued while a fire is on. */
    method RequestFire(reason: Reason) returns (ok: bool)
      requires Valid()
      modifies this`queue, this`ops
      ensures Valid() && ok == (phase.IDLE? && |old(queue)| < 2)
      ensures queue == if ok then old(queue) + [Fire(reason)] else old(queue)
    {
      if !phase.IDLE? || |queue| >= 2 {
        return false;
      }
      Send(Fire(reason));
      ok := true;
    }

    /** `cli_test`: the same on request, refused while no pin is configured. */
    method CliTest(pinned: bool, reason: Reason) returns (ok: bool)
      requires Valid()
      modifies this`queue, this`ops
      ensures Valid() && ok == (pinned && phase.IDLE? && |old(queue)| < 2)
      ensures queue == if ok then old(queue) + [Fire(reason)] else old(queue)
    {
      if !pinned {
        return false;
      }
      ok := RequestFire(reason);
    }

    /** `on_factory_reset`; the pin and its polarity stay what they are. */
    method OnFactoryReset()
      requires Valid()
      modifies this`abort, this`active, this`phase, this`started, this`cfg, this`ops
      ensures Valid() && !active && abort && phase.IDLE? && started.None? && cfg == Config(0, 60, false, 5)
    {
      WriteIdle();
      StoreAbort();
      StorePhaseIdle();
      StoreConfig(Config(0, 60, false, 5));
      WriteIdle();
    }

    /** Anything the other tasks may do meanwhile, in any order and as often as they like. */
    method Others()
      requires Valid()
      modifies this`abort, this`active, this`phase, this`started, this`cfg, this`queue, this`ops
      ensures Valid() && old(queue) <= queue
    {
      var n: nat := *;
      while n > 0
        invariant Valid() && old(queue) <= queue
      {
        if {
          case true => StoreAbort();
          case true => WriteIdle();
          case true => StorePhaseIdle();
          case true =>
            var message: Message := *;
            Send(message);
          case true =>
            var c: Config := *;
            StoreConfig(c);
        }
        n := n - 1;
      }
    }

    // -------------------------------------------------------------- the worker

    /** `cancellable_sleep_ms`. */
    method CancellableSleepMs(totalMs: nat, ghost where: Where) returns (aborted: bool)
      requires Valid() && pc == Sleep(where, totalMs)
      modifies this
      ensures Valid() && pc == (if aborted then Aborted else After(where)) && events == old(events)
    {
      var left := totalMs;
      while left > 0
        invariant Valid() && pc == Sleep(where, left) && events == old(events)
      {
        Others();
        ghost var before := View();
        if abort {
          pc := Aborted;
          Record(before, Work);
          return true;
        }
        pc := Delay(where, left);
        Record(before, Work);
        Others();
        left := DelayChunk(left, where);
      }
      Others();
      ghost var before := View();
      aborted := abort;
      pc := if aborted then Aborted else After(where);
      Record(before, Work);
    }

    method DelayChunk(left: nat, ghost where: Where) returns (next: nat)
      requires Valid() && pc == Delay(where, left) && left > 0
      modifies this
      ensures Valid() && next < left && pc == Sleep(where, next) && events == old(events)
    {
      ghost var before := View();
      var step := if left < CHUNK then left else CHUNK;
      now := now + step;
      next := left - step;
      chunks, onMs, offMs := chunks + 1, onMs + (if active then step else 0), offMs + (if active then 0 else step);
      pc := Sleep(where, next);
      Record(before, Work);
    }

    method ClearAbort(reason: Reason)
      requires Valid() && pc == Begin(reason)
      modifies this`abort, this`pc, this`ops
      ensures Valid() && pc == Starting(reason)
    {
      ghost var before := View();
      abort, pc := false, Starting(reason);
      Record(before, Work);
    }

    method PublishStart(reason: Reason)
      requires Valid() && pc == Starting(reason)
      modifies this
      ensures Valid() && pc.ReadDelay? && events == old(events) + [Start(reason)]
    {
      ghost var before := View();
      started, events := Some(now), events + [Start(reason)];
      onMs, offMs, pc := 0, 0, ReadDelay;
      Record(before, Work);
    }

    method WriteActive(steady: bool, ghost where: Where) returns (ms: nat)
      requires Valid()
      requires if steady then pc.SteadyOn? && where.InSteady?
               else where.InOn? && pc == PulseTop(where.i, where.cycles) && where.i < where.cycles
      modifies this`active, this`writes, this`pc, this`ops
      ensures Valid() && pc == Sleep(where, ms)
    {
      ghost var before := View();
      active, writes := true, writes + 1;
      ms := if steady then U32(cfg.duration * 1000) else U32(cfg.pulse * 1000);
      pc := Sleep(where, ms);
      Record(before, Work);
    }

    method EndHalfCycle(ghost i: nat, ghost cycles: nat) returns (ms: nat)
      requires Valid() && pc == PulseOff(i, cycles)
      modifies this`active, this`pc, this`ops
      ensures Valid() && pc == Sleep(InOff(i, cycles), ms)
    {
      ghost var before := View();
      active, ms := false, U32(cfg.pulse * 1000);
      pc := Sleep(InOff(i, cycles), ms);
      Record(before, Work);
    }

    /** The last write of a fire. */
    method FinalWriteIdle(ok: bool)
      requires Valid() && (if ok then pc.SteadyOff? else pc.Aborted?)
      modifies this`active, this`pc, this`ops
      ensures Valid() && pc == Finish(ok)
    {
      ghost var before := View();
      active, pc := false, Finish(ok);
      Record(before, Work);
    }

    method ChooseMode() returns (pulsed: bool, cycles: nat)
      requires Valid() && pc.Mode?
      modifies this`phase, this`pc, this`ops
      ensures Valid() && pc == if pulsed then PulseTop(0, cycles) else SteadyOn
    {
      ghost var before := View();
      pulsed, cycles := cfg.pulseEnabled && cfg.pulse > 0, Cycles(cfg);
      if pulsed {
        phase, pc := PULSING, PulseTop(0, cycles);
      } else {
        phase, pc := ACTIVE, SteadyOn;
      }
      Record(before, Work);
    }

    method StartDelay() returns (aborted: bool)
      requires Valid() && pc.ReadDelay?
      modifies this
      ensures Valid() && pc == (if aborted then Aborted else Mode) && events == old(events)
    {
      ghost var before := View();
      if cfg.delay > 0 {
        phase := DELAYING;
        var ms := U32(cfg.delay * 1000);
        pc := Sleep(InDelay, ms);
        Record(before, Work);
        aborted := CancellableSleepMs(ms, InDelay);
      } else {
        pc := Mode;
        Record(before, Work);
        aborted := false;
      }
      Others();
    }

    /** One turn of the pulse loop. */
    method Pulse(i: nat, cycles: nat) returns (aborted: bool)
      requires Valid() && pc == PulseTop(i, cycles) && i < cycles
      modifies this
      ensures Valid() && pc == (if aborted then Aborted else PulseTop(i + 1, cycles)) && events == old(events)
    {
      var ms := WriteActive(false, InOn(i, cycles));
      aborted := CancellableSleepMs(ms, InOn(i, cycles));
      if aborted {
        return;
      }
      Others();
      ms := EndHalfCycle(i, cycles);
      aborted := CancellableSleepMs(ms, InOff(i, cycles));
    }

    method SteadyFire() returns (aborted: bool)
      requires Valid() && pc.SteadyOn?
      modifies this
      ensures Valid() && pc == (if aborted then Aborted else Finish(true)) && events == old(events)
    {
      Others();
      var ms := WriteActive(true, InSteady);
      aborted := CancellableSleepMs(ms, InSteady);
      if aborted {
        return;
      }
      Others();
      FinalWriteIdle(true);
    }

    method PulsedFire(cycles: nat) returns (aborted: bool)
      requires Valid() && pc == PulseTop(0, cycles)
      modifies this
      ensures Valid() && pc == (if aborted then Aborted else Finish(true)) && events == old(events)
    {
      var i := 0;
      while i < cycles
        invariant i <= cycles && Valid() && pc == PulseTop(i, cycles) && events == old(events)
      {
        Others();
        aborted := Pulse(i, cycles);
        if aborted {
          return;
        }
        i := i + 1;
      }
      Others();
      ghost var before := View();
      pc := Finish(true);
      Record(before, Work);
      aborted := false;
    }

    method SetIdle(ok: bool)
      requires Valid() && pc == Finish(ok)
      modifies this`phase, this`started, this`pc, this`ops
      ensures Valid() && pc == Publishing(ok)
    {
      ghost var before := View();
      phase, started, pc := IDLE, None, Publishing(ok);
      Record(before, Work);
    }

    method PublishEnd(ok: bool)
      requires Valid() && pc == Publishing(ok)
      modifies this`events, this`pc, this`ops
      ensures Valid() && pc.Waiting? && events == old(events) + [End(ok, false)]
    {
      ghost var before := View();
      RunInv(origin, ops);
      assert !active;
      events, pc := events + [End(ok, active)], Waiting;
      Record(before, Work);
    }

    method BeginFire(reason: Reason)
      requires Valid() && pc == Begin(reason)
      modifies this
      ensures Valid() && pc.ReadDelay? && events == old(events) + [Start(reason)]
    {
      ClearAbort(reason);
      Others();
      PublishStart(reason);
      Others();
    }

    /** The start delay, then the pulses or the steady active time. */
    method DriveLine() returns (aborted: bool)
      requires Valid() && pc.ReadDelay?
      modifies this
      ensures Valid() && pc == (if aborted then Aborted else Finish(true)) && events == old(events)
    {
      aborted := StartDelay();
      if aborted {
        return;
      }
      var pulsed, cycles := ChooseMode();
      if pulsed {
        aborted := PulsedFire(cycles);
      } else {
        aborted := SteadyFire();
      }
    }

    method EndFire(ok: bool)
      requires Valid() && pc == (if ok then Finish(true) else Aborted)
      modifies this
      ensures Valid() && pc.Waiting? && events == old(events) + [End(ok, false)]
    {
      if !ok {
        Others();
        FinalWriteIdle(false);
      }
      Others();
      SetIdle(ok);
      Others();
      PublishEnd(ok);
    }

    /**
     * `run_fire_sequence`. Whatever the others do meanwhile, one start event and one end event are
     * published, the latter with the line idle.
     */
    method RunFireSequence(reason: Reason) returns (ok: bool)
      requires Valid() && pc == Begin(reason)
      modifies this
      ensures Valid() && pc.Waiting? && events == old(events) + [Start(reason), End(ok, false)]
    {
      BeginFire(reason);
      var aborted := DriveLine();
      ok := !aborted;
      EndFire(ok);
    }

    /**
     * What `worker_task` does with the message at the front: a fire runs while none is on and is ignored otherwise,
     * and an abort message clears the flag.
     */
    method Handle() returns (fired: bool, ok: bool)
      requires Valid() && pc.Waiting? && queue != []
      modifies this
      ensures Valid() && pc.Waiting? && fired == (old(queue)[0].Fire? && old(phase).IDLE?)
      ensures fired ==> events == old(events) + [Start(old(queue)[0].reason), End(ok, false)]
      ensures !fired ==> events == old(events) && queue == old(queue)[1..]
      ensures old(queue)[0].AbortMessage? ==> !abort
    {
      fired, ok := false, false;
      ghost var before := View();
      var message := queue[0];
      queue := queue[1..];
      match message
      case Fire(reason) =>
        if !phase.IDLE? {
          Record(before, Work);
        } else {
          pc := Begin(reason);
          Record(before, Work);
          Others();
          ok := RunFireSequence(reason);
          fired := true;
        }
      case AbortMessage =>
        abort := false;
        Record(before, Work);
    }

    /**
     * One turn of `worker_task`. A fire that was at the front of the queue is run: its start event and its end event
     * are published. Nothing is published for any other message.
     */
    method WorkerTurn() returns (fired: bool, ok: bool)
      requires Valid() && pc.Waiting?
      modifies this
      ensures Valid() && pc.Waiting?
      ensures old(queue) != [] ==> fired == old(queue)[0].Fire?
      ensures old(queue) != [] && fired ==> events == old(events) + [Start(old(queue)[0].reason), End(ok, false)]
      ensures fired ==> exists reason :: events == old(events) + [Start(reason), End(ok, false)]
      ensures !fired ==> events == old(events)
    {
      fired, ok := false, false;
      Others();
      RunInv(origin, ops);
      if |queue| > 0 {
        fired, ok := Handle();
      }
    }
  }
}
