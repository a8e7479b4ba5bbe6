/**
 * The relay worker and the commands that interfere with it. Every atomic action of the worker task
 * is one step; the steps of other tasks may come between any two of them.
 */
module Relay {
  import opened Basics

  datatype Phase = IDLE | DELAYING | ACTIVE | PULSING

  datatype Reason = TimerTriggered | Manual

  datatype Event = Start(reason: Reason) | End(ok: bool, lineActive: bool)

  datatype Message = Fire(reason: Reason) | AbortMessage

  /** Times are in seconds, as configured. */
  datatype Config = Config(delay: nat, duration: nat, pulseEnabled: bool, pulse: nat)

  /** Which of the sleeps of a fire: the start delay, the two halves of pulse `i`, or the steady active time. */
  datatype Where = InDelay | InOn(i: nat, cycles: nat) | InOff(i: nat, cycles: nat) | InSteady

  /** What the worker does next. */
  datatype Pc =
    | Waiting
    | Begin(reason: Reason)
    | Starting(reason: Reason)
    | ReadDelay
    | Sleep(where: Where, left: nat)
    | Delay(where: Where, left: nat)
    | Mode
    | PulseTop(i: nat, cycles: nat)
    | PulseOff(i: nat, cycles: nat)
    | SteadyOn
    | SteadyOff
    | Aborted
    | Finish(ok: bool)
    | Publishing(ok: bool)

  /**
   * `active` is the driven state of the line. For the theorems: how often the line was driven active, how
   * many chunks were slept, and for how long the line was active or idle since the last start event.
   */
  datatype State = State(pc: Pc, abort: bool, active: bool, phase: Phase, started: Option<nat>, cfg: Config,
                         queue: seq<Message>, events: seq<Event>, now: nat,
                         writes: nat, chunks: nat, onMs: nat, offMs: nat)

  const CHUNK := 100

  /** One action of the worker, or one of the others: raise the flag, drive the line idle, and so on. */
  datatype Op =
    | Work
    | RaiseAbort
    | DriveIdle
    | ForceIdlePhase
    | Enqueue(message: Message)
    | Configure(cfg: Config)

  function Cycles(cfg: Config): (c: nat)
    ensures c >= 1
  {
    var cycleMs, totalMs := U32(cfg.pulse * 2 * 1000), U32(cfg.duration * 1000);
    var c := if cycleMs > 0 then totalMs / cycleMs else 1;
    if c == 0 then 1 else c
  }

  /** Where a sleep that was not cut short leads. */
  function After(w: Where): Pc {
    match w
    case InDelay => Mode
    case InOn(i, cycles) => PulseOff(i, cycles)
    case InOff(i, cycles) => PulseTop(i + 1, cycles)
    case InSteady => SteadyOff
  }

  function Receive(s: State): State {
    if s.queue == [] then s
    else
      var rest := s.(queue := s.queue[1..]);
      match s.queue[0]
      case Fire(reason) => if s.phase.IDLE? then rest.(pc := Begin(reason)) else rest
      case AbortMessage => rest.(abort := false)
  }

  /** `vTaskDelay` for one chunk. */
  function Pass(s: State, where: Where, left: nat): State
  {
    var step := if left < CHUNK then left else CHUNK;
    s.(pc := Sleep(where, left - step), now := s.now + step, chunks := s.chunks + 1,
       onMs := s.onMs + (if s.active then step else 0), offMs := s.offMs + (if s.active then 0 else step))
  }

  function Working(s: State): State {
    match s.pc
    case Waiting => Receive(s)
    case Begin(reason) => s.(abort := false, pc := Starting(reason))
    case Starting(reason) =>
      s.(started := Some(s.now), events := s.events + [Start(reason)], onMs := 0, offMs := 0, pc := ReadDelay)
    case ReadDelay =>
      if s.cfg.delay > 0 then s.(phase := DELAYING, pc := Sleep(InDelay, U32(s.cfg.delay * 1000))) else s.(pc := Mode)
    case Sleep(where, left) =>
      s.(pc := if s.abort then Aborted else if left > 0 then Delay(where, left) else After(where))
    case Delay(where, left) => Pass(s, where, left)
    case Mode =>
      if s.cfg.pulseEnabled && s.cfg.pulse > 0 then s.(phase := PULSING, pc := PulseTop(0, Cycles(s.cfg)))
      else s.(phase := ACTIVE, pc := SteadyOn)
    case PulseTop(i, cycles) =>
      if i < cycles then s.(active := true, writes := s.writes + 1,
                            pc := Sleep(InOn(i, cycles), U32(s.cfg.pulse * 1000)))
      else s.(pc := Finish(true))
    case PulseOff(i, cycles) => s.(active := false, pc := Sleep(InOff(i, cycles), U32(s.cfg.pulse * 1000)))
    case SteadyOn => s.(active := true, writes := s.writes + 1, pc := Sleep(InSteady, U32(s.cfg.duration * 1000)))
    case SteadyOff => s.(active := false, pc := Finish(true))
    case Aborted => s.(active := false, pc := Finish(false))
    case Finish(ok) => s.(phase := IDLE, started := None, pc := Publishing(ok))
    case Publishing(ok) => s.(events := s.events + [End(ok, s.active)], pc := Waiting)
  }

  function Apply(s: State, op: Op): State {
    match op
    case Work => Working(s)
    case RaiseAbort => s.(abort := true)
    case DriveIdle => s.(active := false)
    case ForceIdlePhase => s.(phase := IDLE, started := None)
    case Enqueue(message) => s.(queue := s.queue + [message])
    case Configure(cfg) => s.(cfg := cfg)
  }

  function Run(s: State, ops: seq<Op>): State
    decreases |ops|
  {
    if ops == [] then s else Run(Apply(s, ops[0]), ops[1..])
  }

  // ---------------------------------------------------------------- what always holds

  /** Between the start event and the end event of a fire. */
  predicate Firing(pc: Pc) {
    !(pc.Waiting? || pc.Begin? || pc.Starting?)
  }

  /** Points where the line may be active. */
  predicate MayBeActive(pc: Pc) {
    ((pc.Sleep? || pc.Delay?) && (pc.where.InOn? || pc.where.InSteady?)) || pc.PulseOff? || pc.SteadyOff? || pc.Aborted?
  }

  /** Start and end events alternate, and the line was idle at every end event. */
  ghost predicate Story(events: seq<Event>) {
    && (forall i :: 0 <= i < |events| ==> (events[i].Start? <==> i % 2 == 0))
    && (forall e <- events :: e.End? ==> !e.lineActive)
  }

  ghost predicate Inv(s: State) {
    && Story(s.events) && (Firing(s.pc) <==> |s.events| % 2 == 1)
    && (s.active ==> MayBeActive(s.pc))
    && (!Firing(s.pc) || s.pc.ReadDelay? || s.pc.Publishing? ==> s.phase.IDLE?)
  }

  lemma StoryGrows(events: seq<Event>, e: Event)
    requires Story(events) && (e.Start? <==> |events| % 2 == 0) && (e.End? ==> !e.lineActive)
    ensures Story(events + [e])
  {
  }

  lemma StepInv(s: State, op: Op, t: State)
    requires Inv(s) && t == Apply(s, op)
    ensures Inv(t)
  {
    if op.Work? && s.pc.Starting? {
      StoryGrows(s.events, Start(s.pc.reason));
    } else if op.Work? && s.pc.Publishing? {
      StoryGrows(s.events, End(s.pc.ok, s.active));
    } else {
      assert t.events == s.events;
    }
  }

  /**
   * Whatever the other tasks do, start and end events alternate, the line is idle whenever an end event is
   * published, and it is active only while a fire is between the two.
   */
  lemma {:induction false} RunInv(s: State, ops: seq<Op>)
    requires Inv(s)
    ensures Inv(Run(s, ops))
    decreases |ops|
  {
    if ops != [] {
      StepInv(s, ops[0], Apply(s, ops[0]));
      RunInv(Apply(s, ops[0]), ops[1..]);
    }
  }

  // ---------------------------------------------------------------- no request is lost

  /** The reasons of the start events. */
  function Started(events: seq<Event>): seq<Reason> {
    if events == [] then []
    else Started(events[..|events| - 1])
         + if events[|events| - 1].Start? then [events[|events| - 1].reason] else []
  }

  /** The request the worker has taken up but not yet announced. */
  function Underway(pc: Pc): seq<Reason> {
    match pc
    case Begin(reason) => [reason]
    case Starting(reason) => [reason]
    case _ => []
  }

  /** The requests that wait in the queue. */
  function Wanted(queue: seq<Message>): seq<Reason> {
    if queue == [] then [] else (if queue[0].Fire? then [queue[0].reason] else []) + Wanted(queue[1..])
  }

  function Added(op: Op): seq<Reason> {
    if op.Enqueue? && op.message.Fire? then [op.message.reason] else []
  }

  /** The requests made in the course of a run. */
  function Requested(ops: seq<Op>): seq<Reason> {
    if ops == [] then [] else Added(ops[0]) + Requested(ops[1..])
  }

  /** All requests ever: those announced, the one being taken up, those that wait. */
  function Requests(s: State): seq<Reason> {
    Started(s.events) + Underway(s.pc) + Wanted(s.queue)
  }

  lemma {:induction false} WantedAppend(queue: seq<Message>, message: Message)
    ensures Wanted(queue + [message]) == Wanted(queue) + Added(Enqueue(message))
  {
    if queue == [] {
      assert (queue + [message])[1..] == [];
    } else {
      assert (queue + [message])[1..] == queue[1..] + [message];
      WantedAppend(queue[1..], message);
      var mine, rest, last := if queue[0].Fire? then [queue[0].reason] else [], Wanted(queue[1..]),
                              Added(Enqueue(message));
      assert mine + (rest + last) == mine + rest + last;
    }
  }

  lemma EventsGrowBy(s: State, t: State, e: Event)
    requires t.events == s.events + [e] && t.queue == s.queue && Underway(t.pc) == []
    requires Underway(s.pc) == if e.Start? then [e.reason] else []
    ensures Requests(t) == Requests(s)
  {
    assert (s.events + [e])[..|s.events|] == s.events;
    assert Started(t.events) == Started(s.events) + Underway(s.pc);
    assert Started(s.events) + Underway(s.pc) + [] == Started(s.events) + Underway(s.pc);
  }

  lemma QueueGrowsBy(s: State, t: State, message: Message)
    requires t.queue == s.queue + [message] && t.events == s.events && Underway(t.pc) == Underway(s.pc)
    ensures Requests(t) == Requests(s) + Added(Enqueue(message))
  {
    WantedAppend(s.queue, message);
    var had, wanted, added := Started(s.events) + Underway(s.pc), Wanted(s.queue), Added(Enqueue(message));
    assert had + (wanted + added) == had + wanted + added;
  }

  lemma QueueShrinks(s: State, t: State)
    requires s.queue != [] && t.queue == s.queue[1..] && t.events == s.events && Underway(s.pc) == []
    requires Underway(t.pc) == if s.queue[0].Fire? then [s.queue[0].reason] else []
    ensures Requests(t) == Requests(s)
  {
    var started, taken, rest := Started(s.events), Underway(t.pc), Wanted(t.queue);
    assert Wanted(s.queue) == taken + rest;
    assert started + [] + (taken + rest) == started + taken + rest;
  }

  /** What an action of the worker does to events, queue and the request it is about. */
  lemma WorkShown(s: State, t: State)
    requires t == Working(s)
    ensures !(s.pc.Waiting? || s.pc.Starting? || s.pc.Publishing?) ==>
              t.events == s.events && t.queue == s.queue && Underway(t.pc) == Underway(s.pc)
  {
  }

  lemma WorkKeeps(s: State, t: State)
    requires Inv(s) && t == Working(s)
    ensures Requests(t) == Requests(s)
  {
    if s.pc.Waiting? {
      if s.queue != [] {
        QueueShrinks(s, t);
      }
    } else if s.pc.Starting? {
      EventsGrowBy(s, t, Start(s.pc.reason));
    } else if s.pc.Publishing? {
      EventsGrowBy(s, t, End(s.pc.ok, s.active));
    } else {
      WorkShown(s, t);
    }
  }

  lemma RequestsKept(s: State, op: Op, t: State)
    requires Inv(s) && t == Apply(s, op)
    ensures Requests(t) == Requests(s) + Added(op)
  {
    if op.Enqueue? {
      QueueGrowsBy(s, t, op.message);
    } else {
      if op.Work? {
        WorkKeeps(s, t);
      }
      assert Requests(s) + [] == Requests(s);
    }
  }

  /**
   * Under every interleaving of the tasks, the requests announced by start events, the one being taken up, and those
   * that wait are exactly the requests there were and those made since, in the order in which they were made: none
   * is lost, repeated or overtaken.
   */
  lemma {:induction false} EveryRequestFires(s: State, ops: seq<Op>, t: State)
    requires Inv(s) && t == Run(s, ops)
    ensures Requests(t) == Requests(s) + Requested(ops)
    decreases |ops|
  {
    if ops == [] {
      assert Requests(s) + [] == Requests(s);
    } else {
      var s' := Apply(s, ops[0]);
      StepInv(s, ops[0], s');
      RequestsKept(s, ops[0], s');
      EveryRequestFires(s', ops[1..], t);
      var had, added, later := Requests(s), Added(ops[0]), Requested(ops[1..]);
      assert had + added + later == had + (added + later);
    }
  }

  // ---------------------------------------------------------------- aborting

  /** With the flag up: what the worker may still do before it notices, an active write or a chunk of sleep. */
  function Budget(pc: Pc): (b: nat)
    ensures b <= 1
  {
    if pc.ReadDelay? || pc.Mode? || pc.PulseTop? || pc.SteadyOn? || pc.Delay? then 1 else 0
  }

  /** With the flag up: how many actions the worker is from its end event. */
  function Rank(pc: Pc): (r: nat)
    ensures r <= 8 && (Firing(pc) ==> r >= 1)
  {
    match pc
    case Publishing(_) => 1
    case Finish(_) => 2
    case Aborted | SteadyOff => 3
    case Sleep(_, _) => 4
    case Delay(_, _) | PulseTop(_, _) | PulseOff(_, _) | SteadyOn => 5
    case Mode => 6
    case ReadDelay => 7
    case _ => 0
  }

  function Works(ops: seq<Op>): nat {
    if ops == [] then 0 else (if ops[0].Work? then 1 else 0) + Works(ops[1..])
  }

  lemma {:induction false} EventsGrow(s: State, ops: seq<Op>)
    ensures |Run(s, ops).events| >= |s.events|
    decreases |ops|
  {
    if ops != [] {
      EventsGrow(Apply(s, ops[0]), ops[1..]);
    }
  }

  /** Between two fires nothing is driven and nobody sleeps. */
  lemma {:induction false} QuietBetween(s: State, ops: seq<Op>, t: State)
    requires !Firing(s.pc) && t == Run(s, ops) && |t.events| == |s.events|
    ensures t.writes == s.writes && t.chunks == s.chunks && t.now == s.now
    decreases |ops|
  {
    if ops != [] {
      EventsGrow(Apply(s, ops[0]), ops[1..]);
      QuietBetween(Apply(s, ops[0]), ops[1..], t);
    }
  }

  /** One step with the flag up, short of the end event. */
  lemma AbortStep(s: State, op: Op, t: State)
    requires s.abort && Firing(s.pc) && t == Apply(s, op) && !(op.Work? && s.pc.Publishing?)
    ensures t.abort && Firing(t.pc) && t.events == s.events
    ensures t.writes - s.writes + t.chunks - s.chunks + Budget(t.pc) <= Budget(s.pc)
    ensures t.writes >= s.writes && t.chunks >= s.chunks && t.now <= s.now + CHUNK * (t.chunks - s.chunks)
    ensures Rank(t.pc) <= Rank(s.pc) && (op.Work? ==> Rank(t.pc) < Rank(s.pc))
    ensures Past(t.pc) <==> Past(s.pc)
  {
  }

  /**
   * An abort raised during a fire, by whatever command and at whatever point: up to the end event, and on to
   * the next start event, at most one more thing happens, an active write or a chunk of at most 100 ms; and
   * the end event comes within eight actions of the worker.
   */
  lemma {:induction false} AbortTakesEffect(s: State, ops: seq<Op>, t: State)
    requires s.abort && Firing(s.pc) && t == Run(s, ops) && |t.events| <= |s.events| + 1
    ensures t.writes - s.writes + t.chunks - s.chunks <= Budget(s.pc) <= 1
    ensures t.writes >= s.writes && t.chunks >= s.chunks && t.now <= s.now + CHUNK * (t.chunks - s.chunks)
    ensures Works(ops) >= Rank(s.pc) ==> |t.events| == |s.events| + 1
    decreases |ops|
  {
    if ops != [] {
      var s' := Apply(s, ops[0]);
      EventsGrow(s', ops[1..]);
      if ops[0].Work? && s.pc.Publishing? {
        QuietBetween(s', ops[1..], t);
      } else {
        AbortStep(s, ops[0], s');
        AbortTakesEffect(s', ops[1..], t);
      }
    }
  }

  /** Past the last point where a fire looks at the flag. */
  predicate Past(pc: Pc) {
    pc.SteadyOff? || (pc.PulseTop? && pc.i >= pc.cycles) || ((pc.Finish? || pc.Publishing?) && pc.ok)
  }

  lemma {:induction false} EventsExtend(s: State, ops: seq<Op>)
    ensures s.events <= Run(s, ops).events
    decreases |ops|
  {
    if ops != [] {
      EventsExtend(Apply(s, ops[0]), ops[1..]);
    }
  }

  /**
   * The fire in which the flag is raised is reported as aborted, unless it had looked at the flag for the last
   * time.
   */
  lemma {:induction false} AbortIsReported(s: State, ops: seq<Op>, t: State)
    requires s.abort && Firing(s.pc) && t == Run(s, ops) && |t.events| > |s.events|
    ensures t.events[|s.events|].End? && (t.events[|s.events|].ok <==> Past(s.pc))
    decreases |ops|
  {
    var s' := Apply(s, ops[0]);
    EventsExtend(s', ops[1..]);
    if !(ops[0].Work? && s.pc.Publishing?) {
      AbortStep(s, ops[0], s');
      AbortIsReported(s', ops[1..], t);
    }
  }

  /** Not on its way to report an abort. */
  predicate Clean(s: State) {
    !s.abort && !s.pc.Aborted? && !(s.pc.Finish? && !s.pc.ok) && !(s.pc.Publishing? && !s.pc.ok)
  }

  lemma {:induction false} NobodyAborts(s: State, ops: seq<Op>)
    requires Clean(s) && forall i :: 0 <= i < |ops| ==> !ops[i].RaiseAbort?
    ensures Clean(Run(s, ops))
    ensures s.events <= Run(s, ops).events
    ensures forall i :: |s.events| <= i < |Run(s, ops).events| && Run(s, ops).events[i].End? ==>
            Run(s, ops).events[i].ok
    decreases |ops|
  {
    if ops != [] {
      NobodyAborts(Apply(s, ops[0]), ops[1..]);
    }
  }

  /**
   * A flag left over from earlier cancels nothing: unless the flag is raised again, every fire that begins ends
   * well.
   */
  lemma StaleFlagIsHarmless(s: State, ops: seq<Op>)
    requires s.pc.Begin? && ops != [] && ops[0].Work? && forall i :: 0 <= i < |ops| ==> !ops[i].RaiseAbort?
    ensures forall i :: |s.events| <= i < |Run(s, ops).events| && Run(s, ops).events[i].End? ==>
            Run(s, ops).events[i].ok
  {
    NobodyAborts(Apply(s, ops[0]), ops[1..]);
  }

  // ---------------------------------------------------------------- timing

  /** The worker on its own. */
  function Solo(s: State, k: nat): State
    decreases k
  {
    if k == 0 then s else Solo(Working(s), k - 1)
  }

  lemma {:induction false} SoloAdds(s: State, j: nat, k: nat)
    ensures Solo(Solo(s, j), k) == Solo(s, j + k)
    decreases j
  {
    if j > 0 {
      SoloAdds(Working(s), j - 1, k);
    }
  }

  /** Nothing but time passed: `on` ms with the line active, `off` ms with it idle. */
  predicate Passed(s: State, t: State, pc: Pc, on: nat, off: nat) {
    && t.pc == pc && !t.abort && t.cfg == s.cfg && t.queue == s.queue && t.events == s.events
    && t.now == s.now + on + off && t.onMs == s.onMs + on && t.offMs == s.offMs + off
  }

  /** The chunks of a sleep add up to exactly its length. */
  lemma {:induction false} SleepRuns(s: State, w: Where, left: nat) returns (k: nat, t: State)
    requires s.pc == Sleep(w, left) && !s.abort
    ensures t == Solo(s, k) && t.active == s.active
    ensures Passed(s, t, After(w), if s.active then left else 0, if s.active then 0 else left)
    decreases left
  {
    if left == 0 {
      k, t := 1, Working(s);
      assert Solo(s, 1) == Solo(t, 0);
    } else {
      var s1 := Working(s);
      var s2 := Working(s1);
      k, t := SleepRuns(s2, w, if left < CHUNK then 0 else left - CHUNK);
      k := k + 2;
      assert Solo(s, k) == Solo(s1, k - 1) == Solo(s2, k - 2);
    }
  }

  /** One pulse: as long active as idle. */
  lemma PulseRuns(s: State, i: nat, cycles: nat, p: nat) returns (k: nat, t: State)
    requires s.pc == PulseTop(i, cycles) && i < cycles && !s.abort && p == U32(s.cfg.pulse * 1000)
    ensures t == Solo(s, k) && !t.active && Passed(s, t, PulseTop(i + 1, cycles), p, p)
  {
    var s1 := Working(s);
    var k1, s2 := SleepRuns(s1, InOn(i, cycles), p);
    var s3 := Working(s2);
    var k2, s4 := SleepRuns(s3, InOff(i, cycles), p);
    SoloAdds(s1, k1, k2 + 1);
    k, t := 1 + k1 + 1 + k2, s4;
  }

  lemma {:induction false} PulsesRun(s: State, i: nat, cycles: nat, p: nat) returns (k: nat, t: State)
    requires s.pc == PulseTop(i, cycles) && i <= cycles && !s.abort && !s.active && p == U32(s.cfg.pulse * 1000)
    ensures t == Solo(s, k) && !t.active && Passed(s, t, Finish(true), (cycles - i) * p, (cycles - i) * p)
    decreases cycles - i
  {
    if i == cycles {
      k, t := 1, Working(s);
      assert Solo(s, 1) == Solo(t, 0);
    } else {
      var k1, s1 := PulseRuns(s, i, cycles, p);
      var k2, t' := PulsesRun(s1, i + 1, cycles, p);
      SoloAdds(s, k1, k2);
      assert (cycles - i) * p == (cycles - i - 1) * p + p;
      k, t := k1 + k2, t';
    }
  }

  lemma SteadyRuns(s: State, d: nat) returns (k: nat, t: State)
    requires s.pc.SteadyOn? && !s.abort && d == U32(s.cfg.duration * 1000)
    ensures t == Solo(s, k) && !t.active && Passed(s, t, Finish(true), d, 0)
  {
    var s1 := Working(s);
    var k1, s2 := SleepRuns(s1, InSteady, d);
    var s3 := Working(s2);
    assert Solo(s2, 1) == Solo(s3, 0);
    SoloAdds(s1, k1, 1);
    k, t := 1 + k1 + 1, s3;
  }

  /** From reading the delay to the choice of the mode. */
  lemma DelayRuns(s: State, d: nat) returns (k: nat, t: State)
    requires s.pc.ReadDelay? && !s.abort && !s.active && d == U32(s.cfg.delay * 1000)
    ensures t == Solo(s, k) && !t.active && Passed(s, t, Mode, 0, d)
  {
    var s1 := Working(s);
    if s.cfg.delay == 0 {
      k, t := 1, s1;
      assert Solo(s, 1) == Solo(s1, 0);
    } else {
      var k1, t' := SleepRuns(s1, InDelay, d);
      k, t := k1 + 1, t';
    }
  }

  predicate Pulsed(cfg: Config) {
    cfg.pulseEnabled && cfg.pulse > 0
  }

  function OnTime(cfg: Config): nat {
    if Pulsed(cfg) then Cycles(cfg) * U32(cfg.pulse * 1000) else U32(cfg.duration * 1000)
  }

  function OffTime(cfg: Config): nat {
    U32(cfg.delay * 1000) + if Pulsed(cfg) then Cycles(cfg) * U32(cfg.pulse * 1000) else 0
  }

  lemma ModeRuns(s: State) returns (k: nat, t: State)
    requires s.pc.Mode? && !s.abort && !s.active
    ensures t == Solo(s, k) && !t.active
    ensures Passed(s, t, Finish(true), OnTime(s.cfg), if Pulsed(s.cfg) then OnTime(s.cfg) else 0)
  {
    var s1 := Working(s);
    if Pulsed(s.cfg) {
      k, t := PulsesRun(s1, 0, Cycles(s.cfg), U32(s.cfg.pulse * 1000));
    } else {
      k, t := SteadyRuns(s1, U32(s.cfg.duration * 1000));
    }
    k := k + 1;
  }

  /** A fire that nobody interferes with: its two events, and the exact times, with whatever flag it begins. */
  lemma FireRuns(s: State) returns (k: nat, t: State)
    requires s.pc.Begin? && !s.active
    ensures t == Solo(s, k) && t.pc.Waiting? && !t.active && t.cfg == s.cfg && t.queue == s.queue
    ensures t.events == s.events + [Start(s.pc.reason), End(true, false)] && t.phase.IDLE? && t.started.None?
    ensures t.onMs == OnTime(s.cfg) && t.offMs == OffTime(s.cfg) && t.now == s.now + t.onMs + t.offMs
  {
    var s1 := Working(s);
    var s2 := Working(s1);
    var k1, s3 := DelayRuns(s2, U32(s.cfg.delay * 1000));
    var k2, s4 := ModeRuns(s3);
    var s5 := Working(s4);
    t := Working(s5);
    assert Solo(s4, 2) == Solo(s5, 1) == Solo(t, 0);
    SoloAdds(s3, k2, 2);
    SoloAdds(s2, k1, k2 + 2);
    k := 2 + k1 + k2 + 2;
    assert Solo(s, k) == Solo(s1, k - 1) == Solo(s2, k - 2);
    assert t.events == s.events + [Start(s.pc.reason)] + [End(true, false)];
  }

  /**
   * The same from the queue on: an idle worker takes up the request at its front, and leaves the rest of the
   * queue as it is.
   */
  lemma RequestRuns(s: State, reason: Reason) returns (k: nat, t: State)
    requires s.pc.Waiting? && s.phase.IDLE? && !s.active && s.queue != [] && s.queue[0] == Fire(reason)
    ensures t == Solo(s, k) && t.pc.Waiting? && !t.active && t.cfg == s.cfg && t.queue == s.queue[1..]
    ensures t.events == s.events + [Start(reason), End(true, false)] && t.phase.IDLE? && t.started.None?
    ensures t.onMs == OnTime(s.cfg) && t.offMs == OffTime(s.cfg) && t.now == s.now + t.onMs + t.offMs
  {
    k, t := FireRuns(Working(s));
    k := k + 1;
  }

  /** Any other message, and a request while a fire is on, is taken off the queue; an abort message clears the flag. */
  lemma OtherMessages(s: State)
    requires s.pc.Waiting? && (s.queue == [] || s.queue[0].AbortMessage? || !s.phase.IDLE?)
    ensures var t := Working(s);
            && t.pc.Waiting? && t.events == s.events && t.active == s.active && t.phase == s.phase && t.cfg == s.cfg
            && t.queue == (if s.queue == [] then [] else s.queue[1..])
            && (t.abort <==> s.abort && (s.queue == [] || s.queue[0].Fire?))
  {
  }

  /** The ranges the commands accept (and `MAX`es of the header). */
  predicate Accepted(cfg: Config) {
    cfg.delay <= 10 && 1 <= cfg.duration <= 3600 && 1 <= cfg.pulse <= 60
  }

  lemma AcceptedCycles(d: nat, p: nat, c: nat, q: nat)
    requires d <= 3600 && 1 <= p <= 60 && c == Cycles(Config(0, d, true, p)) && q == d / (2 * p)
    ensures c == if d < 2 * p then 1 else q
    ensures 2 * p * q <= d < 2 * p * (q + 1)
  {
    ScaledQuotient(d, 2 * p);
    var cycleMs, totalMs := p * 2 * 1000, d * 1000;
    assert cycleMs == 2 * p * 1000 && U32(cycleMs) == cycleMs && U32(totalMs) == totalMs;
    assert totalMs / cycleMs == q;
    if d < 2 * p {
      assert q == 0;
    } else {
      assert q > 0;
    }
  }

  /**
   * For every accepted configuration nothing wraps: a steady fire is active for exactly the configured time,
   * and a pulsed one is active and idle for the same number of whole half cycles, as many as fit, but at least one.
   */
  lemma AcceptedTimes(cfg: Config)
    requires Accepted(cfg)
    ensures !cfg.pulseEnabled ==> OnTime(cfg) == 1000 * cfg.duration && OffTime(cfg) == 1000 * cfg.delay
    ensures cfg.pulseEnabled ==>
              OnTime(cfg) == Cycles(cfg) * (1000 * cfg.pulse) && OffTime(cfg) == 1000 * cfg.delay + OnTime(cfg)
    ensures cfg.duration >= 2 * cfg.pulse ==>
            2 * cfg.pulse * Cycles(cfg) <= cfg.duration < 2 * cfg.pulse * (Cycles(cfg) + 1)
    ensures cfg.duration < 2 * cfg.pulse ==> Cycles(cfg) == 1
  {
    AcceptedCycles(cfg.duration, cfg.pulse, Cycles(cfg), cfg.duration / (2 * cfg.pulse));
  }

  lemma MulMonotone(a: nat, b: nat, m: nat)
    requires a <= b
    ensures a * m <= b * m
  {
  }

  lemma QuotientUnique(x: nat, m: nat, q: nat, r: nat)
    requires m > 0 && x == q * m + r && r < m
    ensures x / m == q
  {
    var y := x / m;
    assert y * m <= x < (y + 1) * m;
    if y < q {
      MulMonotone(y + 1, q, m);
    } else if q < y {
      MulMonotone(q + 1, y, m);
    }
  }

  /** Scaling both operands by 1000 does not change a quotient. */
  lemma ScaledQuotient(d: nat, m: nat)
    requires m > 0
    ensures (d * 1000) / (m * 1000) == d / m && m * (d / m) <= d < m * (d / m + 1)
  {
    var q, r := d / m, d % m;
    assert d == m * q + r;
    assert d * 1000 == q * (m * 1000) + r * 1000;
    QuotientUnique(d * 1000, m * 1000, q, r * 1000);
    assert m * (q + 1) == m * q + m;
  }
}
