/** The `uint32_t` fired mask as a set of alarm indices. */
module AlarmMask {

  predicate HasBit(mask: bv32, i: bv6)
    requires i < 32
  {
    mask & ((1 as bv32) << i) != 0
  }

  predicate Has(mask: bv32, i: nat)
    requires i < 32
  {
    NarrowInjective(i, i);
    HasBit(mask, i as bv6)
  }

  function Indices(mask: bv32): set<nat> {
    set i: nat | 0 <= i < 32 && Has(mask, i)
  }

  lemma NarrowInjective(i: nat, j: nat)
    requires i < 32 && j < 32
    ensures i as bv6 < 32 && (i as bv6 == j as bv6 <==> i == j)
  {
  }

  lemma SetBitTested(mask: bv32, i: bv6, j: bv6)
    requires i < 32 && j < 32
    ensures HasBit(mask | ((1 as bv32) << i), j) <==> j == i || HasBit(mask, j)
  {
  }

  function With(mask: bv32, i: nat): bv32
    requires i < 32
  {
    NarrowInjective(i, i);
    mask | ((1 as bv32) << (i as bv6))
  }

  lemma WithTested(mask: bv32, i: nat, j: nat)
    requires i < 32 && j < 32
    ensures Has(With(mask, i), j) <==> j == i || Has(mask, j)
  {
    NarrowInjective(i, j);
    NarrowInjective(j, i);
    SetBitTested(mask, i as bv6, j as bv6);
  }

  lemma IndicesOfWith(mask: bv32, i: nat)
    requires i < 32
    ensures Indices(With(mask, i)) == Indices(mask) + {i}
  {
    forall j: nat | j < 32
      ensures Has(With(mask, i), j) <==> j == i || Has(mask, j)
    {
      WithTested(mask, i, j);
    }
  }
}

/**
 * The engine as the source keeps it: one flat record of variables, a key-value
 * store written through on every transition, and an event bus. Every operation
 * is proved to do what the four-state machine of TimerMachine does.
 */
module TimerEngine {
  import opened Basics
  import opened TimerMachine
  import opened TimerRuns
  import opened AlarmMask

  /** The keys of the `ls_tmr` namespace; a key never written reads as None. */
  datatype Nvs = Nvs(unit: Option<nat>, value: Option<nat>, alarms: Option<nat>,
                     state: Option<nat>, deadline: Option<int>, vacEnd: Option<int>,
                     vacRem: Option<nat>, mask: Option<bv32>)

  const ERASED := Nvs(None, None, None, None, None, None, None, None)

  /** The five persisted runtime variables. */
  datatype Runtime = Runtime(state: StateName, deadline: int, vacEnd: int, vacRem: nat, mask: bv32)

  const DEFAULT_RUNTIME := Runtime(INACTIVE, 0, 0, 0, 0)

  function StateCode(s: StateName): nat {
    match s case INACTIVE => 0 case COUNTDOWN => 1 case VACATION => 2 case TRIGGERED => 3
  }

  function StateFromCode(code: nat): StateName
    requires code <= 3
  {
    if code == 0 then INACTIVE else if code == 1 then COUNTDOWN else if code == 2 then VACATION else TRIGGERED
  }

  function UnitCode(u: Unit): nat {
    match u case Minute => 0 case Hour => 1 case Day => 2
  }

  function UnitFromCode(code: nat): Unit
    requires code <= 2
  {
    if code == 0 then Minute else if code == 1 then Hour else Day
  }

  /** What `nvs_load` makes of the stored configuration: missing or out-of-range keys keep the default. */
  function StoredConfig(n: Nvs): Config {
    Config(if n.unit.Some? && n.unit.value <= 2 then UnitFromCode(n.unit.value) else DEFAULT_CONFIG.unit,
           if n.value.Some? && MIN_VALUE <= n.value.value <= MAX_VALUE then n.value.value else DEFAULT_CONFIG.value,
           if n.alarms.Some? && n.alarms.value <= MAX_ALARMS then n.alarms.value else DEFAULT_CONFIG.alarmCount)
  }

  function StoredRuntime(n: Nvs): Runtime {
    Runtime(if n.state.Some? && n.state.value <= 3 then StateFromCode(n.state.value) else INACTIVE,
            if n.deadline.Some? then n.deadline.value else 0,
            if n.vacEnd.Some? then n.vacEnd.value else 0,
            if n.vacRem.Some? then n.vacRem.value else 0,
            if n.mask.Some? then n.mask.value else 0)
  }

  /** An instant that is not positive stands for none. */
  function Noted(v: Runtime): Runtime {
    v.(deadline := if v.deadline <= 0 then 0 else v.deadline, vacEnd := if v.vacEnd <= 0 then 0 else v.vacEnd)
  }

  /** The value under the one key whose width matters fits its type; all else may stand in the store. */
  predicate Typed(n: Nvs) {
    n.vacRem.Some? ==> n.vacRem.value < 0x1_0000_0000
  }

  /** The state the store tells of, as far as a store can. */
  function StoredMachine(n: Nvs): Machine {
    var v := StoredRuntime(n);
    match v.state
    case INACTIVE => Inactive
    case COUNTDOWN => Countdown(Anchor(v.deadline, 0), Indices(v.mask))
    case VACATION => Vacation(Anchor(v.vacEnd, 0), v.vacRem, Indices(v.mask))
    case TRIGGERED => Triggered
  }

  function AlarmsBelow(cfg: Config, fired: set<nat>, rem: nat, k: nat): set<nat> {
    set i | 0 <= i < k && AlarmDue(cfg, fired, rem, i)
  }

  lemma OneMoreAlarm(cfg: Config, fired: set<nat>, rem: nat, k: nat)
    ensures AlarmsBelow(cfg, fired, rem, k + 1) ==
            AlarmsBelow(cfg, fired, rem, k) + if AlarmDue(cfg, fired, rem, k) then {k} else {}
  {
  }

  class Engine {
    var cfg: Config
    var state: StateName
    var deadlineEpoch: int
    var vacationEndEpoch: int
    var vacationRemaining: nat
    var alarmsFired: bv32
    var deadlineUptime: int
    var remainingAtStart: nat
    var vacationEndUptime: int
    var nvs: Nvs
    var bus: seq<Event>

    function Ram(): Runtime
      reads this
    {
      Runtime(state, deadlineEpoch, vacationEndEpoch, vacationRemaining, alarmsFired)
    }

    /** What holds even in the middle of a transition, before the runtime keys are written. */
    predicate Ready()
      reads this
    {
      StoredConfig(nvs) == cfg && ConfigOk(cfg) && vacationRemaining < 0x1_0000_0000
    }

    /** Between events the store reloads to what is in memory, whatever the state. */
    predicate Valid()
      reads this
    {
      Ready() && Noted(StoredRuntime(nvs)) == Noted(Ram())
    }

    /** The abstract state: the fields the current state reads, and no others. */
    function Abs(): Machine
      reads this
    {
      match state
      case INACTIVE => Inactive
      case COUNTDOWN => Countdown(Anchor(deadlineEpoch, deadlineUptime), Indices(alarmsFired))
      case VACATION => Vacation(Anchor(vacationEndEpoch, vacationEndUptime), vacationRemaining, Indices(alarmsFired))
      case TRIGGERED => Triggered
    }

    /** Nothing is waited for and nothing is left over: every runtime variable is at zero. */
    predicate Disarmed()
      reads this
    {
      && state == INACTIVE && alarmsFired == 0
      && deadlineEpoch == 0 && deadlineUptime == 0 && remainingAtStart == 0
      && vacationEndEpoch == 0 && vacationEndUptime == 0 && vacationRemaining == 0
    }

    /** A countdown of so many seconds from the reading on, on the wall clock too if that is set. */
    predicate CountsDown(seconds: nat, r: Reading)
      reads this
    {
      && state == COUNTDOWN && remainingAtStart == seconds
      && deadlineUptime == r.us + seconds * 1_000_000
      && deadlineEpoch == if TimeIsValid(r.epoch) then r.epoch + seconds else 0
    }

    /** A vacation of so many seconds from the reading on, the time left to run laid aside. */
    predicate OnVacation(seconds: nat, left: nat, r: Reading)
      reads this
    {
      && state == VACATION && vacationRemaining == left && deadlineEpoch == 0 && deadlineUptime == 0
      && vacationEndUptime == r.us + seconds * 1_000_000
      && vacationEndEpoch == if TimeIsValid(r.epoch) then r.epoch + seconds else 0
    }

    /** What a state does not take up. */
    predicate Ignores(c: Command)
      reads this
    {
      match c
      case Tick => state == INACTIVE || state == TRIGGERED
      case Reset(_) => state == INACTIVE || state == VACATION
      case VacSet(_) => state != COUNTDOWN
      case VacCancel => state != VACATION
      case _ => false
    }

    /** A device whose namespace was never written. */
    constructor ()
      ensures Valid() && Abs() == Inactive && cfg == DEFAULT_CONFIG && bus == []
    {
      cfg := DEFAULT_CONFIG;
      state, deadlineEpoch, vacationEndEpoch, vacationRemaining, alarmsFired := INACTIVE, 0, 0, 0, 0;
      deadlineUptime, remainingAtStart, vacationEndUptime := 0, 0, 0;
      nvs, bus := ERASED, [];
    }

    // -------------------------------------------------------------- persistence

    method SaveConfig()
      modifies this`nvs
      ensures StoredRuntime(nvs) == old(StoredRuntime(nvs))
      ensures ConfigOk(cfg) ==> StoredConfig(nvs) == cfg
    {
      nvs := nvs.(unit := Some(UnitCode(cfg.unit)), value := Some(cfg.value), alarms := Some(cfg.alarmCount));
    }

    method SaveRuntime()
      modifies this`nvs
      ensures StoredRuntime(nvs) == Ram() && StoredConfig(nvs) == old(StoredConfig(nvs))
    {
      nvs := nvs.(state := Some(StateCode(state)), deadline := Some(deadlineEpoch), vacEnd := Some(vacationEndEpoch),
                  vacRem := Some(vacationRemaining), mask := Some(alarmsFired));
    }

    /** `nvs_load`, on any store at all: each key is checked on its own and otherwise left at its default. */
    method Load()
      requires cfg == DEFAULT_CONFIG && Ram() == DEFAULT_RUNTIME
      modifies this`cfg, this`state, this`deadlineEpoch, this`vacationEndEpoch, this`vacationRemaining, this`alarmsFired
      ensures Ram() == StoredRuntime(nvs) && cfg == StoredConfig(nvs)
    {
      LoadConfig();
      LoadRuntime();
    }

    method LoadConfig()
      requires cfg == DEFAULT_CONFIG
      modifies this`cfg
      ensures cfg == StoredConfig(nvs)
    {
      if nvs.unit.Some? && nvs.unit.value <= 2 { cfg := cfg.(unit := UnitFromCode(nvs.unit.value)); }
      if nvs.value.Some? && MIN_VALUE <= nvs.value.value <= MAX_VALUE { cfg := cfg.(value := nvs.value.value); }
      if nvs.alarms.Some? && nvs.alarms.value <= MAX_ALARMS { cfg := cfg.(alarmCount := nvs.alarms.value); }
    }

    method LoadRuntime()
      requires Ram() == DEFAULT_RUNTIME
      modifies this`state, this`deadlineEpoch, this`vacationEndEpoch, this`vacationRemaining, this`alarmsFired
      ensures Ram() == StoredRuntime(nvs)
    {
      if nvs.state.Some? && nvs.state.value <= 3 { state := StateFromCode(nvs.state.value); }
      deadlineEpoch := if nvs.deadline.Some? then nvs.deadline.value else deadlineEpoch;
      vacationEndEpoch := if nvs.vacEnd.Some? then nvs.vacEnd.value else vacationEndEpoch;
      vacationRemaining := if nvs.vacRem.Some? then nvs.vacRem.value else vacationRemaining;
      alarmsFired := if nvs.mask.Some? then nvs.mask.value else alarmsFired;
    }

    // -------------------------------------------------------------- transitions

    function RemainingNow(r: Reading): (rem: nat)
      reads this
      ensures rem == Remaining(Abs(), r) && rem < 0x1_0000_0000
    {
      if state != COUNTDOWN then 0
      else if deadlineUptime > 0 then
        var d := deadlineUptime - r.us;
        if d <= 0 then 0 else U32((d + 500_000) / 1_000_000)
      else if !TimeIsValid(r.epoch) then 0
      else
        var d := deadlineEpoch - r.epoch;
        if d < 0 then 0 else U32(d)
    }

    method PublishState(r: Reading)
      modifies this`bus
      ensures bus == old(bus) + [Announce(Abs(), r)]
    {
      bus := bus + [StateEvent(state, RemainingNow(r))];
    }

    method EnterCountdown(seconds: nat, resetBy: Option<bool>, resetAlarms: bool, r: Reading)
      requires Ready()
      modifies this
      ensures Valid() && cfg == old(cfg)
      ensures Abs() == Countdown(Armed(r, seconds), if resetAlarms then {} else Indices(old(alarmsFired)))
      ensures CountsDown(seconds, r) && alarmsFired == if resetAlarms then 0 else old(alarmsFired)
      ensures unchanged(`vacationEndEpoch, `vacationEndUptime, `vacationRemaining)
      ensures bus == old(bus) + [Announce(Abs(), r)]
                     + (if resetBy.Some? then [ResetEvent(resetBy.value)] else [])
    {
      state := COUNTDOWN;
      remainingAtStart := seconds;
      deadlineUptime := r.us + seconds * 1_000_000;
      if TimeIsValid(r.epoch) {
        deadlineEpoch := r.epoch + seconds;
      } else {
        deadlineEpoch := 0;
      }
      if resetAlarms { alarmsFired := 0; }
      SaveRuntime();
      PublishState(r);
      if resetBy.Some? { bus := bus + [ResetEvent(resetBy.value)]; }
    }

    method EnterInactive(r: Reading)
      requires Ready()
      modifies this
      ensures Valid() && cfg == old(cfg)
      ensures Abs() == Inactive && Disarmed()
      ensures bus == old(bus) + [StateEvent(INACTIVE, 0)]
    {
      state := INACTIVE;
      deadlineEpoch, deadlineUptime, remainingAtStart := 0, 0, 0;
      vacationEndEpoch, vacationEndUptime, vacationRemaining := 0, 0, 0;
      alarmsFired := 0;
      SaveRuntime();
      PublishState(r);
    }

    method EnterVacation(days: nat, r: Reading)
      requires Valid() && state == COUNTDOWN
      modifies this
      ensures Valid() && cfg == old(cfg)
      ensures Abs() == Vacation(Armed(r, days * 86400), old(RemainingNow(r)), old(Abs()).fired)
      ensures OnVacation(days * 86400, old(RemainingNow(r)), r) && alarmsFired == old(alarmsFired)
      ensures bus == old(bus) + [VacationOn(Abs().end.epoch), Announce(Abs(), r)]
    {
      Freeze(days * 86400, r);
      SaveRuntime();
      bus := bus + [VacationOn(vacationEndEpoch)];
      PublishState(r);
    }

    /** The variables of a vacation of so many seconds. */
    method Freeze(seconds: nat, r: Reading)
      requires Ready() && state == COUNTDOWN
      modifies this`state, this`deadlineEpoch, this`deadlineUptime,
               this`vacationRemaining, this`vacationEndUptime, this`vacationEndEpoch
      ensures Ready() && Abs() == Vacation(Armed(r, seconds), old(RemainingNow(r)), old(Abs()).fired)
      ensures OnVacation(seconds, old(RemainingNow(r)), r)
    {
      vacationRemaining := RemainingNow(r);
      vacationEndUptime := r.us + seconds * 1_000_000;
      vacationEndEpoch := if TimeIsValid(r.epoch) then r.epoch + seconds else 0;
      state := VACATION;
      deadlineEpoch, deadlineUptime := 0, 0;
    }

    method ExitVacationToCountdown(r: Reading)
      requires Valid() && state == VACATION
      modifies this
      ensures Valid() && cfg == old(cfg)
      ensures var o := Resume(old(Abs()).saved, old(Abs()).fired, cfg, r);
              Abs() == o.machine && bus == old(bus) + o.events
      ensures vacationEndEpoch == 0 && vacationEndUptime == 0 && vacationRemaining == 0
      ensures if old(vacationRemaining) == 0 then Disarmed()
              else CountsDown(old(vacationRemaining), r) && alarmsFired == old(alarmsFired)
    {
      bus := bus + [VacationOff];
      var resume := vacationRemaining;
      vacationEndEpoch, vacationEndUptime, vacationRemaining := 0, 0, 0;
      if resume == 0 {
        EnterInactive(r);
        return;
      }
      EnterCountdown(resume, None, false, r);
    }

    method EnterTriggered(r: Reading)
      requires Ready()
      modifies this
      ensures Valid() && cfg == old(cfg)
      ensures Abs() == Triggered
      ensures bus == old(bus) + [Announce(Triggered, r), TriggeredEvent(TotalDuration(cfg))]
    {
      state := TRIGGERED;
      deadlineEpoch, deadlineUptime := 0, 0;
      SaveRuntime();
      PublishState(r);
      bus := bus + [TriggeredEvent(TotalDuration(cfg))];
    }
  
    // -------------------------------------------------------------- events

    method FireIfDue(i: nat, remaining: nat) returns (fires: bool)
      requires i < MAX_ALARMS
      modifies this`alarmsFired, this`bus
      ensures fires <==> i !in old(Indices(alarmsFired)) && remaining <= Threshold(cfg, i)
      ensures !fires ==> alarmsFired == old(alarmsFired) && bus == old(bus)
      ensures fires ==> Indices(alarmsFired) == old(Indices(alarmsFired)) + {i}
                        && bus == old(bus) + [AlarmEvent(i, cfg.alarmCount, remaining)]
    {
      fires := !Has(alarmsFired, i) && remaining <= Threshold(cfg, i);
      if fires {
        IndicesOfWith(alarmsFired, i);
        alarmsFired := With(alarmsFired, i);
        bus := bus + [AlarmEvent(i, cfg.alarmCount, remaining)];
      }
    }

    method CheckAlarms(remaining: nat)
      requires Valid()
      modifies this`alarmsFired, this`bus, this`nvs
      ensures Valid()
      ensures Indices(alarmsFired) == old(Indices(alarmsFired)) + NewAlarms(cfg, old(Indices(alarmsFired)), remaining)
      ensures bus == old(bus) + AlarmEvents(NewAlarms(cfg, old(Indices(alarmsFired)), remaining),
                                            cfg.alarmCount, remaining, cfg.alarmCount)
    {
      if cfg.alarmCount == 0 || cfg.alarmCount > MAX_ALARMS {
        return;
      }
      var dirty := FireAlarms(remaining);
      if dirty { SaveRuntime(); }
    }

    /** Its loop: alarms at or above the cap contribute nothing. */
    method FireAlarms(remaining: nat) returns (dirty: bool)
      requires ConfigOk(cfg)
      modifies this`alarmsFired, this`bus
      ensures !dirty ==> alarmsFired == old(alarmsFired)
      ensures Indices(alarmsFired) == old(Indices(alarmsFired)) + NewAlarms(cfg, old(Indices(alarmsFired)), remaining)
      ensures bus == old(bus) + AlarmEvents(NewAlarms(cfg, old(Indices(alarmsFired)), remaining),
                                            cfg.alarmCount, remaining, cfg.alarmCount)
    {
      var n := cfg.alarmCount;
      ghost var fired := Indices(alarmsFired);
      ghost var due := NewAlarms(cfg, fired, remaining);
      var cap := cfg.value;
      dirty := false;
      var i := 0;
      while i < n && i + 1 < cap
        invariant 0 <= i <= n
        invariant !dirty ==> alarmsFired == old(alarmsFired)
        invariant Indices(alarmsFired) == fired + AlarmsBelow(cfg, fired, remaining, i)
        invariant bus == old(bus) + AlarmEvents(due, n, remaining, i)
      {
        OneMoreAlarm(cfg, fired, remaining, i);
        var fires := FireIfDue(i, remaining);
        dirty := dirty || fires;
        i := i + 1;
      }
      NoEventsBeyond(due, n, remaining, i, n);
    }

    method TickByUptime(r: Reading)
      requires Valid() && state == COUNTDOWN && deadlineUptime > r.us
      modifies this`deadlineEpoch, this`alarmsFired, this`nvs, this`bus
      ensures Valid()
      ensures var o := TickCountdown(old(Abs()).deadline, old(Abs()).fired, cfg, r);
              Abs() == o.machine && bus == old(bus) + o.events
    {
      var d := deadlineUptime - r.us;
      var rem := U32((d + 500_000) / 1_000_000);
      TickedByUptime(Anchor(deadlineEpoch, deadlineUptime), Indices(alarmsFired), cfg, r, rem);
      NoteDeadline(rem, r);
      bus := bus + [TickEvent(rem)];
      CheckAlarms(rem);
      ghost var es := AlarmEvents(NewAlarms(cfg, old(Indices(alarmsFired)), rem), cfg.alarmCount, rem, cfg.alarmCount);
      assert old(bus) + [TickEvent(rem)] + es == old(bus) + ([TickEvent(rem)] + es);
    }

    /** A clock that has been set in the meantime gives the deadline its wall-clock half. */
    method NoteDeadline(rem: nat, r: Reading)
      requires Valid()
      modifies this`deadlineEpoch, this`nvs
      ensures Valid()
      ensures deadlineEpoch == Noticed(old(deadlineEpoch), r, rem)
    {
      if deadlineEpoch == 0 && TimeIsValid(r.epoch) {
        deadlineEpoch := r.epoch + rem;
        SaveRuntime();
      }
    }

    method TickInCountdown(r: Reading)
      requires Valid() && state == COUNTDOWN
      modifies this
      ensures Valid() && cfg == old(cfg)
      ensures var o := TickCountdown(old(Abs()).deadline, old(Abs()).fired, cfg, r);
              Abs() == o.machine && bus == old(bus) + o.events
    {
      if deadlineUptime > 0 {
        if deadlineUptime - r.us <= 0 {
          EnterTriggered(r);
        } else {
          TickByUptime(r);
        }
      } else if TimeIsValid(r.epoch) && deadlineEpoch > 0 {
        var rem := deadlineEpoch - r.epoch;
        if rem <= 0 {
          EnterTriggered(r);
        } else {
          deadlineUptime := r.us + rem * 1_000_000;
        }
      }
    }

    method TickInVacation(r: Reading)
      requires Valid() && state == VACATION
      modifies this
      ensures Valid() && cfg == old(cfg)
      ensures var o := TickVacation(old(Abs()).end, old(Abs()).saved, old(Abs()).fired, cfg, r);
              Abs() == o.machine && bus == old(bus) + o.events
    {
      if vacationEndUptime > 0 {
        if r.us >= vacationEndUptime {
          ExitVacationToCountdown(r);
          return;
        }
        if vacationEndEpoch == 0 && TimeIsValid(r.epoch) {
          var left := vacationEndUptime - r.us;
          vacationEndEpoch := r.epoch + (left + 500_000) / 1_000_000;
          SaveRuntime();
        }
        return;
      }
      if !TimeIsValid(r.epoch) { return; }
      if vacationEndEpoch > 0 && r.epoch >= vacationEndEpoch {
        ExitVacationToCountdown(r);
        return;
      }
      if vacationEndEpoch > 0 {
        var rem := vacationEndEpoch - r.epoch;
        if rem > 0 {
          vacationEndUptime := r.us + rem * 1_000_000;
        }
      }
    }

    method HandleTick(r: Reading)
      requires Valid()
      modifies this
      ensures Valid() && cfg == old(cfg)
      ensures var o := Apply(old(Abs()), cfg, Tick, r); Abs() == o.machine && bus == old(bus) + o.events
      ensures old(Ignores(Tick)) ==> unchanged(this)
    {
      if state == COUNTDOWN {
        TickInCountdown(r);
      } else if state == VACATION {
        TickInVacation(r);
      }
    }

    method ApplySet(u: Option<Unit>, v: Option<nat>, n: Option<nat>, r: Reading)
      requires Valid() && CommandOk(Set(u, v, n))
      modifies this`cfg, this`nvs, this`bus
      ensures Valid() && cfg == Reconfigured(old(cfg), Set(u, v, n))
      ensures bus == old(bus) + [StateEvent(state, RemainingNow(r))]
    {
      if u.Some? { cfg := cfg.(unit := u.value); }
      if v.Some? { cfg := cfg.(value := v.value); }
      if n.Some? { cfg := cfg.(alarmCount := n.value); }
      SaveConfig();
      PublishState(r);
    }

    method Rearm(resetBy: Option<bool>, r: Reading)
      requires Valid()
      modifies this
      ensures Valid()
      ensures cfg == old(cfg)
      ensures var announced := if resetBy.Some? then [ResetEvent(resetBy.value)] else [];
              var o := TimerMachine.Rearm(old(Abs()), cfg, r, announced);
              Abs() == o.machine && bus == old(bus) + o.events
      ensures CountsDown(TotalDuration(cfg), r) && alarmsFired == 0
    {
      var total := TotalDuration(cfg);
      assert total > 0;
      if total != 0 {
        EnterCountdown(total, resetBy, true, r);
      }
    }

    /** Every variable back to its initializer: at power-on, and on a factory reset. */
    method ResetVariables()
      modifies this
      ensures cfg == DEFAULT_CONFIG && Ram() == DEFAULT_RUNTIME && Disarmed()
      ensures nvs == old(nvs) && bus == old(bus)
    {
      cfg := DEFAULT_CONFIG;
      state, deadlineEpoch, vacationEndEpoch, vacationRemaining, alarmsFired := INACTIVE, 0, 0, 0, 0;
      deadlineUptime, remainingAtStart, vacationEndUptime := 0, 0, 0;
    }

    method OnFactoryReset(r: Reading)
      requires Valid()
      modifies this
      ensures Valid() && cfg == Config(Hour, 24, 3) && Abs() == Inactive && Disarmed() && nvs == ERASED
      ensures bus == old(bus) + [StateEvent(INACTIVE, 0)]
    {
      ResetVariables();
      nvs := ERASED;
      PublishState(r);
    }

    /**
     * `apply_evt` (and the factory-reset hook): the flat record steps exactly as the abstract machine.
     * Outright: a stop, from any state, leaves nothing armed; a start, or a reset of a timer that counts or has
     * triggered, leaves the full duration to run and no alarm fired; a command the state does not take up
     * leaves every variable, the store and the log alone; a set changes what it names and nothing else.
     */
    method ApplyEvt(c: Command, r: Reading)
      requires Valid() && CommandOk(c)
      modifies this
      ensures Valid()
      ensures var o := Apply(old(Abs()), old(cfg), c, r);
              Abs() == o.machine && cfg == o.cfg && bus == old(bus) + o.events
      ensures old(Ignores(c)) ==> unchanged(this)
      ensures c.Stop? || c.FactoryReset? ==> Disarmed() && bus == old(bus) + [StateEvent(INACTIVE, 0)]
      ensures c.Start? || (c.Reset? && !old(Ignores(c))) ==> CountsDown(TotalDuration(old(cfg)), r) && alarmsFired == 0
      ensures c.VacSet? && !old(Ignores(c)) ==>
                OnVacation(c.days * 86400, old(RemainingNow(r)), r) && alarmsFired == old(alarmsFired)
      ensures c.VacCancel? && !old(Ignores(c)) ==>
                if old(vacationRemaining) == 0 then Disarmed()
                else CountsDown(old(vacationRemaining), r) && alarmsFired == old(alarmsFired)
      ensures c.Set? ==> (
                && cfg.unit == (if c.unit.Some? then c.unit.value else old(cfg).unit)
                && cfg.value == (if c.value.Some? then c.value.value else old(cfg).value)
                && cfg.alarmCount == (if c.alarms.Some? then c.alarms.value else old(cfg).alarmCount)
                && bus == old(bus) + [StateEvent(state, RemainingNow(r))]
                && Ram() == old(Ram()) && unchanged(`deadlineUptime, `vacationEndUptime, `remainingAtStart))
      ensures !c.Set? && !c.FactoryReset? ==> cfg == old(cfg)
      ensures c.FactoryReset? ==> cfg == Config(Hour, 24, 3) && nvs == ERASED
    {
      match c
      case Tick =>
        HandleTick(r);
      case Set(u, v, n) =>
        ApplySet(u, v, n, r);
      case Start =>
        Rearm(None, r);
      case Stop =>
        EnterInactive(r);
      case Reset(byApi) =>
        if state == COUNTDOWN || state == TRIGGERED {
          Rearm(Some(byApi), r);
        }
      case VacSet(days) =>
        if state == COUNTDOWN {
          EnterVacation(days, r);
        }
      case VacCancel =>
        if state == VACATION {
          ExitVacationToCountdown(r);
        }
      case FactoryReset =>
        OnFactoryReset(r);
    }

    /**
     * A power cycle: every variable falls back to its initializer, then `ls_timer_engine_init`
     * loads the store, whoever wrote it, and recovers. If it was the engine, the outcome depends only on the
     * configuration and the abstract state before.
     */
    method Init(r: Reading)
      requires Typed(nvs)
      modifies this
      ensures Valid() && cfg == StoredConfig(old(nvs)) && bus == old(bus)
      ensures Abs() == Boot(StoredMachine(old(nvs)), r)
      ensures old(Valid()) ==> cfg == old(cfg) && Abs() == Boot(old(Abs()), r)
    {
      ResetVariables();
      Load();
      if state == COUNTDOWN {
        RecoverCountdown(r);
      }
      if state == VACATION {
        RecoverVacation(r);
      }
    }

    method RecoverCountdown(r: Reading)
      requires Valid() && state == COUNTDOWN && deadlineUptime == 0
      modifies this`state, this`alarmsFired, this`deadlineUptime, this`nvs
      ensures Valid() && state != VACATION
      ensures Abs() == Boot(old(Abs()), r)
    {
      if deadlineEpoch <= 0 {
        state := INACTIVE;
        alarmsFired := 0;
        nvs := nvs.(state := Some(StateCode(state)), deadline := Some(0), mask := Some(0));
      } else if TimeIsValid(r.epoch) {
        var rem := deadlineEpoch - r.epoch;
        if rem > 0 {
          deadlineUptime := r.us + rem * 1_000_000;
        }
      }
    }

    method RecoverVacation(r: Reading)
      requires Valid() && state == VACATION && vacationEndUptime == 0
      modifies this
      ensures Valid() && cfg == old(cfg) && bus == old(bus)
      ensures Abs() == Boot(old(Abs()), r)
    {
      if vacationEndEpoch <= 0 {
        state := INACTIVE;
        vacationRemaining := 0;
        nvs := nvs.(state := Some(StateCode(state)), vacEnd := Some(0), vacRem := Some(0));
      } else if !TimeIsValid(r.epoch) {
      } else if r.epoch >= vacationEndEpoch {
        var resume := vacationRemaining;
        vacationEndEpoch, vacationRemaining := 0, 0;
        if resume > 0 {
          state := COUNTDOWN;
          deadlineEpoch := r.epoch + resume;
          deadlineUptime := r.us + resume * 1_000_000;
        } else {
          state := INACTIVE;
        }
        nvs := nvs.(state := Some(StateCode(state)), vacEnd := Some(0), vacRem := Some(0),
                    deadline := Some(deadlineEpoch), mask := Some(alarmsFired));
      } else {
        var rem := vacationEndEpoch - r.epoch;
        vacationEndUptime := r.us + rem * 1_000_000;
      }
    }

    method Handle(s: Stimulus, r: Reading)
      requires Valid() && StimulusOk(s)
      modifies this
      ensures Valid()
      ensures var o := React(old(Abs()), old(cfg), s, r);
              Abs() == o.machine && cfg == o.cfg && bus == old(bus) + o.events
    {
      match s
      case Cmd(c) => ApplyEvt(c, r);
      case PowerCycle => Init(r);
    }

    /**
     * `task_main` over a whole run: whatever stale values the unused fields hold, the engine ends in
     * the state, configuration and event log that the four-state machine computes.
     */
    method TaskMain(ms: seq<Moment>)
      requires Valid() && forall i :: 0 <= i < |ms| ==> StimulusOk(ms[i].s)
      modifies this
      ensures Valid()
      ensures Outcome(Abs(), cfg, bus) == After(old(bus), Run(old(Abs()), old(cfg), ms))
    {
      ghost var whole := After(bus, Run(Abs(), cfg, ms));
      var i := 0;
      while i < |ms|
        invariant 0 <= i <= |ms| && Valid()
        invariant whole == After(bus, Run(Abs(), cfg, ms[i..]))
      {
        ghost var o := RunUnfolded(bus, Abs(), cfg, ms, i);
        Handle(ms[i].s, Read(ms[i].w));
        i := i + 1;
      }
    }
  }

  function Noticed(epoch: int, r: Reading, rem: nat): int {
    if epoch == 0 && TimeIsValid(r.epoch) then r.epoch + rem else epoch
  }

  lemma TickedByUptime(a: Anchor, fired: set<nat>, cfg: Config, r: Reading, rem: nat)
    requires a.uptime > r.us && rem == SecondsLeft(a, r)
    ensures var due := NewAlarms(cfg, fired, rem);
            TickCountdown(a, fired, cfg, r) ==
            Outcome(Countdown(Anchor(Noticed(a.epoch, r, rem), a.uptime), fired + due), cfg,
                    [TickEvent(rem)] + AlarmEvents(due, cfg.alarmCount, rem, cfg.alarmCount))
  {
  }

  /** Alarms at or above the cap contribute nothing, so the loop may stop there. */
  lemma {:induction false} NoEventsBeyond(due: set<nat>, of: nat, rem: nat, i: nat, k: nat)
    requires i <= k && forall j <- due :: j < i
    ensures AlarmEvents(due, of, rem, k) == AlarmEvents(due, of, rem, i)
  {
    if i < k {
      NoEventsBeyond(due, of, rem, i, k - 1);
    }
  }
}
