/**
 * Which alarms fire, and how often: the fired set has a closed form, nothing is
 * published twice between two armings, and nothing is missed before the trigger.
 */
module TimerAlarms {
  import opened Basics
  import opened TimerMachine
  import opened TimerRuns

  // ---------------------------------------------------------------- published events

  /** How often alarm `i` is published. */
  function Times(es: seq<Event>, i: nat): nat {
    if es == [] then 0
    else (if es[0].AlarmEvent? && es[0].index == i then 1 else 0) + Times(es[1..], i)
  }

  function Triggers(es: seq<Event>): nat {
    if es == [] then 0
    else (if es[0].TriggeredEvent? then 1 else 0) + Triggers(es[1..])
  }

  /** The least remaining time an alarm check was made at; `low` before any check. */
  function Lowest(es: seq<Event>, low: nat): nat {
    if es == [] then low
    else Lowest(es[1..], if es[0].TickEvent? then Min(low, es[0].remaining) else low)
  }

  lemma {:induction false} EventsAppend(es: seq<Event>, fs: seq<Event>, i: nat, low: nat)
    ensures Times(es + fs, i) == Times(es, i) + Times(fs, i)
    ensures Triggers(es + fs) == Triggers(es) + Triggers(fs)
    ensures Lowest(es + fs, low) == Lowest(fs, Lowest(es, low))
    decreases |es|
  {
    if es == [] {
      assert es + fs == fs;
    } else {
      assert (es + fs)[1..] == es[1..] + fs;
      EventsAppend(es[1..], fs, i, if es[0].TickEvent? then Min(low, es[0].remaining) else low);
    }
  }

  lemma ShortEvents(es: seq<Event>, i: nat, low: nat)
    requires |es| <= 2 && forall e <- es :: !e.AlarmEvent? && !e.TickEvent?
    requires |es| > 0 ==> !es[0].TriggeredEvent?
    ensures Times(es, i) == 0 && Triggers(es) == if |es| == 2 && es[1].TriggeredEvent? then 1 else 0
    ensures Lowest(es, low) == low
  {
    if es != [] {
      assert [es[0]][1..] == [];
      if |es| == 2 {
        assert [es[1]][1..] == [];
        assert es[1] in es && es == [es[0]] + [es[1]];
        EventsAppend([es[0]], [es[1]], i, low);
      }
    }
  }

  /** One alarm check publishes each due index once, and nothing else. */
  lemma {:induction false} AlarmEventsOf(due: set<nat>, of: nat, rem: nat, k: nat, i: nat, low: nat)
    ensures var es := AlarmEvents(due, of, rem, k);
            && Times(es, i) == (if i < k && i in due then 1 else 0)
            && Triggers(es) == 0 && Lowest(es, low) == low
  {
    if k > 0 {
      AlarmEventsOf(due, of, rem, k - 1, i, low);
      var es := AlarmEvents(due, of, rem, k - 1);
      if k - 1 in due {
        var last := [AlarmEvent(k - 1, of, rem)];
        assert last[1..] == [];
        EventsAppend(es, last, i, low);
      } else {
        assert es + [] == es;
      }
    }
  }

  /** The events of one tick that does not trigger. */
  lemma TickEvents(due: set<nat>, of: nat, rem: nat, i: nat, low: nat)
    requires forall j <- due :: j < of
    ensures var es := [TickEvent(rem)] + AlarmEvents(due, of, rem, of);
            && Times(es, i) == (if i in due then 1 else 0)
            && Triggers(es) == 0 && Lowest(es, low) == Min(low, rem)
  {
    AlarmEventsOf(due, of, rem, of, i, Min(low, rem));
    EventsAppend([TickEvent(rem)], AlarmEvents(due, of, rem, of), i, low);
    assert [TickEvent(rem)][1..] == [];
  }

  // ---------------------------------------------------------------- between two armings

  /** `s` starts the countdown afresh in state `m`: START, or a RESET that is accepted. */
  predicate Arms(m: Machine, s: Stimulus) {
    s.Cmd? && (s.c.Start? || (s.c.Reset? && (m.Countdown? || m.Triggered?)))
  }

  predicate Unarmed(m: Machine, cfg: Config, ms: seq<Moment>)
    decreases |ms|
  {
    ms == [] ||
    (&& !Arms(m, ms[0].s)
     && var o := React(m, cfg, ms[0].s, Read(ms[0].w)); Unarmed(o.machine, o.cfg, ms[1..]))
  }

  predicate Live(m: Machine) {
    m.Countdown? || m.Vacation?
  }

  /** Alarm `i` may still be published. */
  predicate Pending(m: Machine, i: nat) {
    Live(m) && i !in m.fired
  }

  /** The one kind of step that checks alarms: a tick of a countdown running on uptime. */
  predicate ChecksAlarms(m: Machine, s: Stimulus, r: Reading) {
    m.Countdown? && s == Cmd(Tick) && m.deadline.uptime > r.us
  }

  lemma QuietStep(m: Machine, cfg: Config, s: Stimulus, r: Reading, i: nat, low: nat)
    requires !Arms(m, s) && !ChecksAlarms(m, s, r)
    ensures var o := React(m, cfg, s, r);
            && Times(o.events, i) == 0 && Lowest(o.events, low) == low
            && Triggers(o.events) == (if m.Countdown? && o.machine.Triggered? then 1 else 0)
            && (Live(o.machine) ==> Live(m) && o.machine.fired == m.fired)
  {
    ShortEvents(React(m, cfg, s, r).events, i, low);
  }

  /** What one stimulus short of an arming publishes, against what it does to the fired set. */
  lemma StepEvents(m: Machine, cfg: Config, s: Stimulus, r: Reading, i: nat)
    requires !Arms(m, s)
    ensures var o := React(m, cfg, s, r);
            && Times(o.events, i) <= (if Pending(m, i) then 1 else 0)
            && (Live(o.machine) ==> Live(m) && (i in o.machine.fired <==> i in m.fired || Times(o.events, i) == 1))
            && Triggers(o.events) == (if m.Countdown? && o.machine.Triggered? then 1 else 0)
  {
    if ChecksAlarms(m, s, r) {
      var rem := SecondsLeft(m.deadline, r);
      TickEvents(NewAlarms(cfg, m.fired, rem), cfg.alarmCount, rem, i, 0);
    } else {
      QuietStep(m, cfg, s, r, i, 0);
    }
  }

  /**
   * Until the next arming every alarm index is published at most once and not at all if it had
   * fired before; so is the trigger, and a timer that is neither counting nor on vacation is silent.
   */
  lemma {:induction false} AtMostOncePerArming(m: Machine, cfg: Config, ms: seq<Moment>, i: nat)
    requires Unarmed(m, cfg, ms)
    ensures var o := Run(m, cfg, ms);
            && Times(o.events, i) <= (if Pending(m, i) then 1 else 0)
            && Triggers(o.events) <= (if Live(m) then 1 else 0)
            && (Live(o.machine) ==> Live(m) && (i in o.machine.fired <==> i in m.fired || Times(o.events, i) == 1))
    decreases |ms|
  {
    if ms != [] {
      var r := Read(ms[0].w);
      var o := React(m, cfg, ms[0].s, r);
      StepEvents(m, cfg, ms[0].s, r, i);
      AtMostOncePerArming(o.machine, o.cfg, ms[1..], i);
      EventsAppend(o.events, Run(o.machine, o.cfg, ms[1..]).events, i, 0);
    }
  }

  // ---------------------------------------------------------------- after a stop

  predicate Stops(s: Stimulus) {
    s == Cmd(Stop) || s == Cmd(FactoryReset)
  }

  /** A timer that is off is left so by everything but a start, and says no more than that it is off. */
  lemma OffStep(m: Machine, cfg: Config, s: Stimulus, r: Reading)
    requires Stops(s) || (m == Inactive && s != Cmd(Start))
    ensures var o := React(m, cfg, s, r);
            && o.machine == Inactive
            && (o.events == [] || o.events == [StateEvent(INACTIVE, 0)])
            && (Stops(s) ==> o.events != [])
            && (s == Cmd(Stop) ==> o.cfg == cfg) && (s == Cmd(FactoryReset) ==> o.cfg == Config(Hour, 24, 3))
  {
  }

  lemma {:induction false} OffRun(m: Machine, cfg: Config, ms: seq<Moment>)
    requires m == Inactive || (ms != [] && Stops(ms[0].s))
    requires forall x <- ms :: x.s != Cmd(Start)
    ensures var o := Run(m, cfg, ms);
            o.machine == Inactive && forall e <- o.events :: e == StateEvent(INACTIVE, 0)
    decreases |ms|
  {
    if ms != [] {
      assert ms[0] in ms && forall x <- ms[1..] :: x in ms;
      OffStep(m, cfg, ms[0].s, Read(ms[0].w));
      var o := React(m, cfg, ms[0].s, Read(ms[0].w));
      OffRun(o.machine, o.cfg, ms[1..]);
    }
  }

  lemma {:induction false} SilentEvents(es: seq<Event>, i: nat)
    requires forall e <- es :: e.StateEvent?
    ensures Times(es, i) == 0 && Triggers(es) == 0
  {
    if es != [] {
      assert es[0] in es && forall e <- es[1..] :: e in es;
      SilentEvents(es[1..], i);
    }
  }

  /**
   * From a stop in any state until the next start, through resets, vacation commands, config changes, ticks
   * and power cycles: the timer is INACTIVE, publishes nothing but that, and so no alarm and no trigger.
   */
  lemma StoppedUntilStarted(m: Machine, cfg: Config, stop: Moment, ms: seq<Moment>, i: nat)
    requires stop.s == Cmd(Stop) && forall x <- ms :: x.s != Cmd(Start)
    ensures var o := Run(m, cfg, [stop] + ms);
            && o.machine == Inactive
            && (forall e <- o.events :: e == StateEvent(INACTIVE, 0)) && StateEvent(INACTIVE, 0) in o.events
            && Times(o.events, i) == 0 && Triggers(o.events) == 0
  {
    var all := [stop] + ms;
    OffStep(m, cfg, stop.s, Read(stop.w));
    OffRun(m, cfg, all);
    SilentEvents(Run(m, cfg, all).events, i);
    assert React(m, cfg, stop.s, Read(stop.w)).events <= Run(m, cfg, all).events;
  }

  /** Only a start gets a stopped timer going, and it does. */
  lemma OnlyStartArms(cfg: Config, s: Stimulus, r: Reading)
    requires ConfigOk(cfg)
    ensures var m := React(Inactive, cfg, s, r).machine;
            && (m.Countdown? <==> s == Cmd(Start)) && (m == Inactive <==> s != Cmd(Start))
            && (m.Countdown? ==> m.fired == {} && m.deadline.uptime == r.us + TotalDuration(cfg) * SECOND)
  {
    assert TotalDuration(cfg) > 0;
  }

  // ---------------------------------------------------------------- the mask in closed form

  /** The alarms whose threshold is at least `low`. */
  function FiredAt(cfg: Config, low: nat): set<nat> {
    set i | 0 <= i < cfg.alarmCount && AlarmEnabled(cfg, i) && low <= Threshold(cfg, i)
  }

  predicate Reconfigures(s: Stimulus) {
    s.Cmd? && (s.c.Set? || s.c.FactoryReset?)
  }

  lemma CheckMeetsClosedForm(cfg: Config, low: nat, rem: nat)
    ensures FiredAt(cfg, low) + NewAlarms(cfg, FiredAt(cfg, low), rem) == FiredAt(cfg, Min(low, rem))
  {
  }

  lemma MaskStep(m: Machine, cfg: Config, s: Stimulus, r: Reading, low: nat)
    requires Live(m) && m.fired == FiredAt(cfg, low) && !Arms(m, s) && !Reconfigures(s)
    ensures var o := React(m, cfg, s, r);
            o.cfg == cfg && (Live(o.machine) ==> o.machine.fired == FiredAt(cfg, Lowest(o.events, low)))
  {
    if ChecksAlarms(m, s, r) {
      var rem := SecondsLeft(m.deadline, r);
      TickEvents(NewAlarms(cfg, m.fired, rem), cfg.alarmCount, rem, 0, low);
      CheckMeetsClosedForm(cfg, low, rem);
    } else {
      QuietStep(m, cfg, s, r, 0, low);
    }
  }

  lemma {:induction false} MaskRun(m: Machine, cfg: Config, ms: seq<Moment>, low: nat)
    requires Live(m) && m.fired == FiredAt(cfg, low)
    requires Unarmed(m, cfg, ms) && forall x <- ms :: !Reconfigures(x.s)
    ensures var o := Run(m, cfg, ms);
            Live(o.machine) ==> o.machine.fired == FiredAt(cfg, Lowest(o.events, low))
    decreases |ms|
  {
    if ms != [] {
      assert ms[0] in ms && forall x <- ms[1..] :: x in ms;
      var r := Read(ms[0].w);
      var o := React(m, cfg, ms[0].s, r);
      MaskStep(m, cfg, ms[0].s, r, low);
      EventsAppend(o.events, Run(o.machine, o.cfg, ms[1..]).events, 0, low);
      if Live(o.machine) {
        MaskRun(o.machine, o.cfg, ms[1..], Lowest(o.events, low));
      } else {
        AtMostOncePerArming(o.machine, o.cfg, ms[1..], 0);
      }
    }
  }

  /** At full duration no alarm is due: this is what the `>= cap` in the check is for. */
  lemma NothingDueAtFullDuration(cfg: Config)
    ensures FiredAt(cfg, TotalDuration(cfg)) == {}
  {
    forall i | AlarmEnabled(cfg, i)
      ensures Threshold(cfg, i) < TotalDuration(cfg)
    {
      var u := UnitSeconds(cfg.unit);
      assert (cfg.value - (i + 1)) * u > 0;
      assert cfg.value * u == (cfg.value - (i + 1)) * u + (i + 1) * u;
    }
  }

  /** Later alarms have larger thresholds, so the fired set is closed upward. */
  lemma FiredUpwardClosed(cfg: Config, low: nat, i: nat, j: nat)
    requires i in FiredAt(cfg, low) && i <= j && AlarmEnabled(cfg, j)
    ensures j in FiredAt(cfg, low)
  {
    assert (j - i) * UnitSeconds(cfg.unit) >= 0;
    assert Threshold(cfg, j) == Threshold(cfg, i) + (j - i) * UnitSeconds(cfg.unit);
  }

  /**
   * With the configuration left alone, the mask is a function of the lowest remaining time checked
   * since the countdown was started, through any ticks, vacations and power cycles.
   */
  lemma MaskIsClosedForm(m: Machine, cfg: Config, r: Reading, ms: seq<Moment>)
    requires ConfigOk(cfg)
    requires Unarmed(Apply(m, cfg, Start, r).machine, cfg, ms)
    requires forall x <- ms :: !Reconfigures(x.s)
    ensures var o := Run(Apply(m, cfg, Start, r).machine, cfg, ms);
            Live(o.machine) ==> o.machine.fired == FiredAt(cfg, Lowest(o.events, TotalDuration(cfg)))
  {
    NothingDueAtFullDuration(cfg);
    MaskRun(Apply(m, cfg, Start, r).machine, cfg, ms, TotalDuration(cfg));
  }

  // ---------------------------------------------------------------- nothing is missed

  const MINUTE := 60 * SECOND

  /** A refused or empty command: it changes neither the state nor the configuration. */
  predicate Leaves(m: Machine, cfg: Config, c: Command, r: Reading) {
    c != Tick && !Arms(m, Cmd(c)) && Apply(m, cfg, c, r).machine == m && Apply(m, cfg, c, r).cfg == cfg
  }

  /** Power comes back with the clock set and more than a minute left, or no alarm to come. */
  predicate BackInTime(m: Machine, cfg: Config, r: Reading) {
    && m.Countdown? && m.deadline.epoch > 0 && TimeIsValid(r.epoch) && m.deadline.epoch > r.epoch
    && (m.deadline.epoch > r.epoch + 60 || forall i: nat | i < cfg.alarmCount :: AlarmEnabled(cfg, i) ==> i in m.fired)
  }

  /**
   * Ticks none of which comes more than a minute after the one before (or after power came back), between them
   * commands that change nothing, and power cycles from which the device is back in time; the clock may be set
   * at any moment. The last tick was at `last`.
   */
  predicate TicksEveryMinute(m: Machine, cfg: Config, last: World, ms: seq<Moment>)
    decreases |ms|
  {
    ms == [] ||
    var x, r := ms[0], Read(ms[0].w);
    var m' := React(m, cfg, x.s, r).machine;
    match x.s
    case PowerCycle => BackInTime(m, cfg, r) && TicksEveryMinute(m', cfg, x.w, ms[1..])
    case Cmd(c) =>
      if c == Tick then x.w.t <= last.t + MINUTE && TicksEveryMinute(m', cfg, x.w, ms[1..])
      else Leaves(m, cfg, c, r) && TicksEveryMinute(m, cfg, last, ms[1..])
  }

  /** In the last minute every alarm that can fire has fired. */
  ghost predicate CaughtUp(m: Machine, cfg: Config, w: World) {
    && m.Countdown? && m.deadline.uptime > 0
    && (m.deadline.uptime + w.boot <= w.t + MINUTE ==> forall i | AlarmEnabled(cfg, i) :: i in m.fired)
  }

  /** A tick within a minute of the last one triggers only if all alarms have fired, and else fires those due. */
  lemma TickCatchesUp(m: Machine, cfg: Config, last: World, w: World, i: nat)
    requires CaughtUp(m, cfg, last) && AlarmEnabled(cfg, i) && Consistent(w)
    requires w.boot == last.boot && last.t <= w.t <= last.t + MINUTE
    ensures var o := Apply(m, cfg, Tick, Read(w));
            && o.cfg == cfg
            && (o.machine.Triggered? ==> i in m.fired)
            && (!o.machine.Triggered? ==>
                  CaughtUp(o.machine, cfg, w) && (i in o.machine.fired <==> i in m.fired || Times(o.events, i) == 1))
  {
    var r := Read(w);
    if !Due(m.deadline, r) {
      var rem := SecondsLeft(m.deadline, r);
      assert m.deadline.uptime + w.boot <= w.t + MINUTE ==> rem <= 60;
      assert forall j: nat :: Threshold(cfg, j) >= 60;
      TickEvents(NewAlarms(cfg, m.fired, rem), cfg.alarmCount, rem, i, 0);
    }
  }

  lemma BackCatchesUp(m: Machine, cfg: Config, w: World)
    requires BackInTime(m, cfg, Read(w)) && Consistent(w)
    ensures var m' := Boot(m, Read(w)); CaughtUp(m', cfg, w) && m'.fired == m.fired
  {
  }

  lemma {:induction false} CompleteRun(m: Machine, cfg: Config, last: World, prev: World, ms: seq<Moment>, i: nat)
    requires CaughtUp(m, cfg, last) && AlarmEnabled(cfg, i) && last.boot == prev.boot && last.t <= prev.t
    requires Chronicle(prev, ms) && TicksEveryMinute(m, cfg, last, ms)
    ensures var o := Run(m, cfg, ms);
            o.machine.Triggered? ==> i in m.fired || Times(o.events, i) == 1
    decreases |ms|
  {
    if ms != [] {
      var x, r := ms[0], Read(ms[0].w);
      var o := React(m, cfg, x.s, r);
      EventsAppend(o.events, Run(o.machine, o.cfg, ms[1..]).events, i, 0);
      UnarmedTicks(m, cfg, last, ms);
      AtMostOncePerArming(m, cfg, ms, i);
      if x.s == Cmd(Tick) {
        TickCatchesUp(m, cfg, last, x.w, i);
        if !o.machine.Triggered? {
          CompleteRun(o.machine, cfg, x.w, x.w, ms[1..], i);
        }
      } else if x.s.PowerCycle? {
        BackCatchesUp(m, cfg, x.w);
        CompleteRun(o.machine, cfg, x.w, x.w, ms[1..], i);
      } else {
        CompleteRun(m, cfg, last, x.w, ms[1..], i);
      }
    }
  }

  lemma {:induction false} UnarmedTicks(m: Machine, cfg: Config, last: World, ms: seq<Moment>)
    requires TicksEveryMinute(m, cfg, last, ms)
    ensures Unarmed(m, cfg, ms)
    decreases |ms|
  {
    if ms != [] {
      var x := ms[0];
      var o := React(m, cfg, x.s, Read(x.w));
      UnarmedTicks(o.machine, o.cfg, if x.s == Cmd(Tick) || x.s.PowerCycle? then x.w else last, ms[1..]);
    }
  }

  /**
   * Started and ticked at least once a minute, the timer has published every enabled alarm once when it
   * triggers, whatever commands are refused, clocks set, and power cycles survived with time to spare.
   */
  lemma AlarmsCompleteBeforeTrigger(m: Machine, cfg: Config, w0: World, ms: seq<Moment>, i: nat)
    requires ConfigOk(cfg) && Consistent(w0) && AlarmEnabled(cfg, i)
    requires Chronicle(w0, ms) && TicksEveryMinute(Apply(m, cfg, Start, Read(w0)).machine, cfg, w0, ms)
    ensures var o := Run(Apply(m, cfg, Start, Read(w0)).machine, cfg, ms);
            o.machine.Triggered? ==> Times(o.events, i) == 1
  {
    var m0 := Apply(m, cfg, Start, Read(w0)).machine;
    assert TotalDuration(cfg) >= 2 * UnitSeconds(cfg.unit) >= 120;
    CompleteRun(m0, cfg, w0, w0, ms, i);
  }

  /** A power cycle that lasts beyond the deadline costs all alarms still to come: the next tick just triggers. */
  lemma PowerCycleMissesAlarms(a: Anchor, fired: set<nat>, cfg: Config, r: Reading, r': Reading, i: nat)
    requires 0 < a.epoch <= r.epoch <= r'.epoch && TimeIsValid(r.epoch)
    ensures var o := Apply(Boot(Countdown(a, fired), r), cfg, Tick, r');
            o.machine.Triggered? && Times(o.events, i) == 0
  {
    ShortEvents(Apply(Boot(Countdown(a, fired), r), cfg, Tick, r').events, i, 0);
  }

  /** A vacation costs the schedule at most half a second, in either direction, and no alarm. */
  lemma VacationShiftsHalfSecond(a: Anchor, fired: set<nat>, cfg: Config, days: nat, w: World, w': World)
    requires Consistent(w) && w.boot <= w.t && a.uptime > w.t - w.boot
             && a.uptime - (w.t - w.boot) < 0x0100_0000 * SECOND
    requires Rounded(a.uptime - (w.t - w.boot)) > 0 && w'.boot <= w'.t
    ensures var m := Apply(Countdown(a, fired), cfg, VacSet(days), Read(w)).machine;
            var m' := Apply(m, cfg, VacCancel, Read(w')).machine;
            && m'.Countdown? && m'.fired == fired
            && var left, left' := a.uptime - (w.t - w.boot), m'.deadline.uptime - (w'.t - w'.boot);
               left - 500_000 <= left' <= left + 500_000
  {
  }
}
