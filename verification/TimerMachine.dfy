/**
 * The dead-man timer as a machine with four states. Each state carries only what
 * its own transitions read: this is what the flat record of `ls_timer_engine.c`
 * is proved to refine (module TimerEngine), and what the theorems about whole
 * runs are about (modules TimerRuns and TimerAlarms).
 */
module TimerMachine {
  import opened Basics

  // ---------------------------------------------------------------- configuration

  datatype Unit = Minute | Hour | Day

  datatype Config = Config(unit: Unit, value: nat, alarmCount: nat)

  const MIN_VALUE := 1
  const MAX_VALUE := 60
  const MAX_ALARMS := 31
  const MAX_VACATION_DAYS := 60
  const TIME_VALID_THRESHOLD := 1700000000
  const DEFAULT_CONFIG := Config(Hour, 24, 3)

  function UnitSeconds(u: Unit): nat {
    match u
    case Minute => 60
    case Hour => 3600
    case Day => 86400
  }

  function TotalDuration(cfg: Config): nat {
    UnitSeconds(cfg.unit) * cfg.value
  }

  predicate ConfigOk(cfg: Config) {
    MIN_VALUE <= cfg.value <= MAX_VALUE && cfg.alarmCount <= MAX_ALARMS
  }

  /** Alarm `i` is due at `i + 1` units before the deadline. */
  function Threshold(cfg: Config, i: nat): nat {
    (i + 1) * UnitSeconds(cfg.unit)
  }

  /** The alarms a configuration can ever fire: strictly fewer than `value`. */
  predicate AlarmEnabled(cfg: Config, i: nat) {
    i < cfg.alarmCount && i + 1 < cfg.value
  }

  // ---------------------------------------------------------------- clocks, commands, events

  /** What the two clocks say at one instant: microseconds since boot, and `time(NULL)`. */
  datatype Reading = Reading(us: nat, epoch: int)

  predicate TimeIsValid(epoch: int) {
    epoch >= TIME_VALID_THRESHOLD
  }

  datatype Command =
    | Tick
    | Set(unit: Option<Unit>, value: Option<nat>, alarms: Option<nat>)
    | Start
    | Stop
    | Reset(byApi: bool)
    | VacSet(days: nat)
    | VacCancel
    | FactoryReset

  /** What the command line lets through to the event queue. */
  predicate CommandOk(c: Command) {
    match c
    case Set(_, v, n) => (v.Some? ==> MIN_VALUE <= v.value <= MAX_VALUE) && (n.Some? ==> n.value <= MAX_ALARMS)
    case VacSet(days) => 1 <= days <= MAX_VACATION_DAYS
    case _ => true
  }

  datatype StateName = INACTIVE | COUNTDOWN | VACATION | TRIGGERED

  // ---------------------------------------------------------------- the `timer set` command line

  datatype Reply = Queued(c: Command) | MissingArg | InvalidArg

  function UnitFromName(name: string): Option<Unit> {
    if name == "minute" then Some(Minute)
    else if name == "hour" then Some(Hour)
    else if name == "day" then Some(Day)
    else None
  }

  /** `cli_set`, after tokenizing: a unit name, `atoi` of the value, and the alarm count (-1 when absent). */
  function CliSet(cfg: Config, unit: Option<string>, value: Option<int>, alarms: int): Reply {
    if unit.None? && value.None? && alarms < 0 then MissingArg
    else if unit.Some? && UnitFromName(unit.value).None? then InvalidArg
    else if value.Some? && !(MIN_VALUE <= value.value <= MAX_VALUE) then InvalidArg
    else if alarms > MAX_ALARMS then InvalidArg
    else if alarms >= 0 && alarms >= (if value.Some? then value.value else cfg.value) then InvalidArg
    else if unit.Some? != value.Some? then MissingArg
    else Queued(Set(if unit.Some? then UnitFromName(unit.value) else None,
                    if value.Some? then Some(value.value) else None,
                    if alarms >= 0 then Some(alarms) else None))
  }

  /**
   * The product rule `alarms < value` after an accepted `timer set`: it holds exactly when the
   * command names an alarm count or the old count fits under the new value. The code rejects
   * only a count named too large; a value lowered on its own keeps the old count.
   */
  lemma AlarmRuleAfterSet(cfg: Config, unit: Option<string>, value: Option<int>, alarms: int)
    requires ConfigOk(cfg) && CliSet(cfg, unit, value, alarms).Queued?
    ensures var c := CliSet(cfg, unit, value, alarms).c;
            && CommandOk(c) && ConfigOk(Reconfigured(cfg, c))
            && (Reconfigured(cfg, c).alarmCount < Reconfigured(cfg, c).value <==>
                alarms >= 0 || cfg.alarmCount < (if value.Some? then value.value else cfg.value))
  {
  }

  /** What the command line accepts, and the command it makes of it: exactly the fields given. */
  lemma SetAccepted(cfg: Config, unit: Option<string>, value: Option<int>, alarms: int)
    ensures CliSet(cfg, unit, value, alarms).Queued? <==>
              && (unit.Some? || value.Some? || alarms >= 0) && (unit.Some? <==> value.Some?)
              && (unit.Some? ==> unit.value in {"minute", "hour", "day"})
              && (value.Some? ==> 1 <= value.value <= 60)
              && (alarms >= 0 ==> alarms <= 31 && alarms < if value.Some? then value.value else cfg.value)
    ensures CliSet(cfg, unit, value, alarms).Queued? ==>
              var c := CliSet(cfg, unit, value, alarms).c;
              && c.Set? && (c.unit.Some? <==> unit.Some?) && (c.value.Some? <==> value.Some?)
              && (unit.Some? ==> c.unit.value == if unit.value == "minute" then Minute
                                                 else if unit.value == "hour" then Hour else Day)
              && (value.Some? ==> c.value.value == value.value)
              && (if alarms >= 0 then c.alarms == Some(alarms) else c.alarms.None?)
  {
  }

  lemma LoweredValueBreaksAlarmRule()
    ensures CliSet(DEFAULT_CONFIG, Some("hour"), Some(2), -1) == Queued(Set(Some(Hour), Some(2), None))
    ensures Reconfigured(DEFAULT_CONFIG, Set(Some(Hour), Some(2), None)) == Config(Hour, 2, 3)
  {
    assert UnitFromName("hour") == Some(Hour);
  }

  datatype Event =
    | StateEvent(state: StateName, remaining: nat)
    | TickEvent(remaining: nat)
    | AlarmEvent(index: nat, of: nat, remaining: nat)
    | TriggeredEvent(duration: nat)
    | ResetEvent(byApi: bool)
    | VacationOn(endEpoch: int)
    | VacationOff

  // ---------------------------------------------------------------- the machine

  /** A point in time kept on both clocks; 0 means "not known on this clock". */
  datatype Anchor = Anchor(epoch: int, uptime: int)

  datatype Machine =
    | Inactive
    | Countdown(deadline: Anchor, fired: set<nat>)
    | Vacation(end: Anchor, saved: nat, fired: set<nat>)
    | Triggered

  datatype Outcome = Outcome(machine: Machine, cfg: Config, events: seq<Event>)

  function NameOf(m: Machine): StateName {
    match m
    case Inactive => INACTIVE
    case Countdown(_, _) => COUNTDOWN
    case Vacation(_, _, _) => VACATION
    case Triggered => TRIGGERED
  }

  function Armed(r: Reading, seconds: nat): Anchor {
    Anchor(if TimeIsValid(r.epoch) then r.epoch + seconds else 0, r.us + seconds * 1_000_000)
  }

  /** Has the anchored instant passed, as far as the clocks can tell? */
  predicate Due(a: Anchor, r: Reading) {
    if a.uptime > 0 then r.us >= a.uptime
    else TimeIsValid(r.epoch) && 0 < a.epoch <= r.epoch
  }

  /** Microseconds to whole seconds, rounded to nearest. */
  function Rounded(us: nat): nat {
    (us + 500_000) / 1_000_000
  }

  /** A tick before the anchored instant: the missing half of the anchor is filled in when possible. */
  function Kept(a: Anchor, r: Reading, left: nat): Anchor {
    if a.uptime > 0 then
      if a.epoch == 0 && TimeIsValid(r.epoch) then Anchor(r.epoch + left, a.uptime) else a
    else if TimeIsValid(r.epoch) && a.epoch > 0 then
      Anchor(a.epoch, r.us + (a.epoch - r.epoch) * 1_000_000)
    else a
  }

  /** Whole seconds left by the uptime half, as the `uint32_t` the engine publishes. */
  function SecondsLeft(a: Anchor, r: Reading): nat
    requires a.uptime > r.us
  {
    U32(Rounded(a.uptime - r.us))
  }

  function Remaining(m: Machine, r: Reading): nat {
    if !m.Countdown? then 0
    else if m.deadline.uptime > 0 then
      if m.deadline.uptime <= r.us then 0 else SecondsLeft(m.deadline, r)
    else if !TimeIsValid(r.epoch) || m.deadline.epoch < r.epoch then 0
    else U32(m.deadline.epoch - r.epoch)
  }

  function Announce(m: Machine, r: Reading): Event {
    StateEvent(NameOf(m), Remaining(m, r))
  }

  /** The alarms a check at `rem` seconds left adds to those already fired. */
  predicate AlarmDue(cfg: Config, fired: set<nat>, rem: nat, i: nat) {
    AlarmEnabled(cfg, i) && i !in fired && rem <= Threshold(cfg, i)
  }

  function NewAlarms(cfg: Config, fired: set<nat>, rem: nat): set<nat> {
    set i | 0 <= i < cfg.alarmCount && AlarmDue(cfg, fired, rem, i)
  }

  /** One alarm event per due alarm, in index order, for the indices below `k`. */
  function AlarmEvents(due: set<nat>, of: nat, rem: nat, k: nat): seq<Event> {
    if k == 0 then []
    else AlarmEvents(due, of, rem, k - 1) + (if k - 1 in due then [AlarmEvent(k - 1, of, rem)] else [])
  }

  function Resume(saved: nat, fired: set<nat>, cfg: Config, r: Reading): Outcome {
    var m := if saved == 0 then Inactive else Countdown(Armed(r, saved), fired);
    Outcome(m, cfg, [VacationOff, Announce(m, r)])
  }

  function TickCountdown(a: Anchor, fired: set<nat>, cfg: Config, r: Reading): Outcome {
    if Due(a, r) then
      Outcome(Triggered, cfg, [Announce(Triggered, r), TriggeredEvent(TotalDuration(cfg))])
    else if a.uptime > 0 then
      var rem := SecondsLeft(a, r);
      Outcome(Countdown(Kept(a, r, rem), fired + NewAlarms(cfg, fired, rem)), cfg,
              [TickEvent(rem)] + AlarmEvents(NewAlarms(cfg, fired, rem), cfg.alarmCount, rem, cfg.alarmCount))
    else
      Outcome(Countdown(Kept(a, r, 0), fired), cfg, [])
  }

  function TickVacation(a: Anchor, saved: nat, fired: set<nat>, cfg: Config, r: Reading): Outcome {
    if Due(a, r) then Resume(saved, fired, cfg, r)
    else
      var left := if a.uptime > 0 then Rounded(a.uptime - r.us) else 0;
      Outcome(Vacation(Kept(a, r, left), saved, fired), cfg, [])
  }

  function Rearm(m: Machine, cfg: Config, r: Reading, tail: seq<Event>): Outcome {
    var total := TotalDuration(cfg);
    if total == 0 then Outcome(m, cfg, [])
    else
      var m' := Countdown(Armed(r, total), {});
      Outcome(m', cfg, [Announce(m', r)] + tail)
  }

  function Reconfigured(cfg: Config, c: Command): Config
    requires c.Set?
  {
    Config(if c.unit.Some? then c.unit.value else cfg.unit,
           if c.value.Some? then c.value.value else cfg.value,
           if c.alarms.Some? then c.alarms.value else cfg.alarmCount)
  }

  function Apply(m: Machine, cfg: Config, c: Command, r: Reading): Outcome {
    match c
    case Tick =>
      (match m
       case Countdown(a, fired) => TickCountdown(a, fired, cfg, r)
       case Vacation(a, saved, fired) => TickVacation(a, saved, fired, cfg, r)
       case _ => Outcome(m, cfg, []))
    case Set(_, _, _) => Outcome(m, Reconfigured(cfg, c), [Announce(m, r)])
    case Start => Rearm(m, cfg, r, [])
    case Stop => Outcome(Inactive, cfg, [Announce(Inactive, r)])
    case Reset(byApi) =>
      if m.Countdown? || m.Triggered? then Rearm(m, cfg, r, [ResetEvent(byApi)]) else Outcome(m, cfg, [])
    case VacSet(days) =>
      if m.Countdown? then
        var m' := Vacation(Armed(r, days * 86400), Remaining(m, r), m.fired);
        Outcome(m', cfg, [VacationOn(m'.end.epoch), Announce(m', r)])
      else Outcome(m, cfg, [])
    case VacCancel => if m.Vacation? then Resume(m.saved, m.fired, cfg, r) else Outcome(m, cfg, [])
    case FactoryReset => Outcome(Inactive, DEFAULT_CONFIG, [Announce(Inactive, r)])
  }

  /** A power cycle: uptime halves are lost, and boot recovery runs on what was persisted. */
  function Boot(m: Machine, r: Reading): Machine {
    match m
    case Inactive => Inactive
    case Triggered => Triggered
    case Countdown(a, fired) =>
      if a.epoch <= 0 then Inactive
      else
        var a0 := Anchor(a.epoch, 0);
        Countdown(if Due(a0, r) then a0 else Kept(a0, r, 0), fired)
    case Vacation(a, saved, fired) =>
      if a.epoch <= 0 then Inactive
      else
        var a0 := Anchor(a.epoch, 0);
        if !Due(a0, r) then Vacation(Kept(a0, r, 0), saved, fired)
        else if saved > 0 then Countdown(Armed(r, saved), fired)
        else Inactive
  }
}
