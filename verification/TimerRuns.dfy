/**
 * Whole runs of the timer: any schedule of commands, ticks and power cycles, under
 * a true time that both clocks follow. Durations and instants are in microseconds.
 */
module TimerRuns {
  import opened Basics
  import opened TimerMachine

  /** True time, the true time of the last boot, and what `time(NULL)` returns. */
  datatype World = World(t: nat, boot: nat, wall: int)

  datatype Stimulus = Cmd(c: Command) | PowerCycle

  datatype Moment = Moment(w: World, s: Stimulus)

  const SECOND := 1_000_000

  /** An unset clock may read anything below the validity threshold; a set clock reads true seconds. */
  predicate Consistent(w: World) {
    w.boot <= w.t && (TimeIsValid(w.wall) ==> w.wall == w.t / SECOND)
  }

  /** Time does not run backwards, and the boot instant changes only at a power cycle. */
  predicate Chronicle(prev: World, ms: seq<Moment>)
    decreases |ms|
  {
    ms == [] ||
    (&& Consistent(ms[0].w)
     && prev.t <= ms[0].w.t
     && (if ms[0].s.PowerCycle? then prev.t <= ms[0].w.boot else ms[0].w.boot == prev.boot)
     && Chronicle(ms[0].w, ms[1..]))
  }

  function React(m: Machine, cfg: Config, s: Stimulus, r: Reading): Outcome {
    match s
    case Cmd(c) => Apply(m, cfg, c, r)
    case PowerCycle => Outcome(Boot(m, r), cfg, [])
  }

  /** What the two clocks read; consistency is a hypothesis of the theorems, not of running. */
  function Read(w: World): Reading {
    Reading(if w.boot <= w.t then w.t - w.boot else 0, w.wall)
  }

  function Run(m: Machine, cfg: Config, ms: seq<Moment>): Outcome
    decreases |ms|
  {
    if ms == [] then Outcome(m, cfg, [])
    else
      var o := React(m, cfg, ms[0].s, Read(ms[0].w));
      var rest := Run(o.machine, o.cfg, ms[1..]);
      rest.(events := o.events + rest.events)
  }

  predicate StimulusOk(s: Stimulus) {
    s.Cmd? ==> CommandOk(s.c)
  }

  function After(done: seq<Event>, o: Outcome): Outcome {
    o.(events := done + o.events)
  }

  /** The first step of what is left of a run, with the events so far in front. */
  ghost function RunUnfolded(done: seq<Event>, m: Machine, cfg: Config, ms: seq<Moment>, i: nat): (o: Outcome)
    requires i < |ms|
    ensures o == React(m, cfg, ms[i].s, Read(ms[i].w))
    ensures After(done, Run(m, cfg, ms[i..])) == After(done + o.events, Run(o.machine, o.cfg, ms[i + 1..]))
  {
    var o := React(m, cfg, ms[i].s, Read(ms[i].w));
    assert ms[i..][1..] == ms[i + 1..];
    var rest := Run(o.machine, o.cfg, ms[i + 1..]);
    assert done + (o.events + rest.events) == done + o.events + rest.events;
    o
  }

  function LastWorld(prev: World, ms: seq<Moment>): World {
    if ms == [] then prev else ms[|ms| - 1].w
  }

  // ---------------------------------------------------------------- power loss never disarms

  /** Nothing the user asks for: time passes, the configuration is edited, power fails. */
  predicate Passive(s: Stimulus) {
    s.PowerCycle? || s.c.Tick? || s.c.Set? || s.c.VacCancel?
  }

  /** Re-arming with a working clock keeps a deadline on record; without one it does not. */
  predicate PassiveOrRearm(x: Moment) {
    Passive(x.s) || ((x.s.c.Start? || x.s.c.Reset?) && TimeIsValid(x.w.wall))
  }

  predicate Secure(m: Machine) {
    m.Triggered? || (m.Countdown? && m.deadline.epoch > 0)
  }

  lemma SecureStep(m: Machine, cfg: Config, x: Moment)
    requires Secure(m) && PassiveOrRearm(x)
    ensures Secure(React(m, cfg, x.s, Read(x.w)).machine)
    ensures Passive(x.s) ==>
              var m' := React(m, cfg, x.s, Read(x.w)).machine;
              m'.Triggered? || (m.Countdown? && m'.deadline.epoch == m.deadline.epoch)
  {
  }

  lemma {:induction false} PowerLossNeverDisarms(m: Machine, cfg: Config, ms: seq<Moment>)
    requires Secure(m) && forall x <- ms :: PassiveOrRearm(x)
    ensures Secure(Run(m, cfg, ms).machine)
    ensures (forall x <- ms :: Passive(x.s)) ==>
              var m' := Run(m, cfg, ms).machine;
              m'.Triggered? || (m.Countdown? && m'.deadline.epoch == m.deadline.epoch)
    decreases |ms|
  {
    if ms != [] {
      assert ms[0] in ms && forall x <- ms[1..] :: x in ms;
      SecureStep(m, cfg, ms[0]);
      var o := React(m, cfg, ms[0].s, Read(ms[0].w));
      PowerLossNeverDisarms(o.machine, o.cfg, ms[1..]);
    }
  }

  /** The exact condition: what a power cycle needs is a deadline on the wall clock. */
  lemma PowerCycleKeepsArmed(a: Anchor, fired: set<nat>, r: Reading)
    ensures Boot(Countdown(a, fired), r).Countdown? <==> a.epoch > 0
    ensures a.epoch <= 0 ==> Boot(Countdown(a, fired), r) == Inactive
  {
  }

  /** A reset while the clock is unset drops the recorded deadline: the next power loss disarms. */
  lemma ResetWithoutClockThenPowerLoss(a: Anchor, fired: set<nat>, cfg: Config, byApi: bool, r: Reading, r': Reading)
    requires ConfigOk(cfg)
    ensures var m := Apply(Countdown(a, fired), cfg, Reset(byApi), r).machine;
            m.Countdown? && (Boot(m, r').Countdown? <==> TimeIsValid(r.epoch))
  {
  }

  // ---------------------------------------------------------------- no drift

  /**
   * The anchor `a` stands for the true instant `due`: the wall half within (-1.5 s, +0.5 s],
   * the uptime half either exact or within one second after the wall half.
   */
  predicate Tracks(a: Anchor, w: World, due: int) {
    && a.epoch >= 0 && a.uptime >= 0
    && (a.epoch > 0 ==> due - 1_500_000 < a.epoch * SECOND <= due + 500_000)
    && (a.uptime > 0 ==>
          a.uptime + w.boot == due
          || (a.epoch > 0 && a.epoch * SECOND <= a.uptime + w.boot < a.epoch * SECOND + SECOND))
    && (a.epoch == 0 ==> a.uptime + w.boot == due && a.uptime > 0)
    && due - w.t <= 0xFFFF_0000 * SECOND
  }

  lemma ArmedTracks(w: World, seconds: nat)
    requires Consistent(w) && 0 < seconds < 0x0100_0000
    ensures Tracks(Armed(Read(w), seconds), w, w.t + seconds * SECOND)
  {
  }

  /** Expiry is seen at most 1.5 s early, and at most 1.5 s late once a clock is there to see it. */
  lemma DueWindow(a: Anchor, w: World, w': World, due: int)
    requires Tracks(a, w, due) && Consistent(w') && w'.boot == w.boot
    ensures Due(a, Read(w')) ==> w'.t > due - 1_500_000
    ensures !Due(a, Read(w')) && (a.uptime > 0 || TimeIsValid(w'.wall)) ==> w'.t < due + 1_500_000
  {
  }

  lemma KeptTracks(a: Anchor, w: World, w': World, due: int, left: nat)
    requires Tracks(a, w, due) && Consistent(w') && w'.boot == w.boot && w.t <= w'.t
    requires !Due(a, Read(w'))
    requires a.uptime > 0 ==> left == Rounded(a.uptime - (w'.t - w'.boot))
    ensures Tracks(Kept(a, Read(w'), left), w', due)
  {
  }

  /** A power cycle loses the uptime half only. */
  lemma ForgottenTracks(a: Anchor, w: World, w': World, due: int)
    requires Tracks(a, w, due) && a.epoch > 0 && w.t <= w'.t
    ensures Tracks(Anchor(a.epoch, 0), w', due)
  {
  }

  lemma SecondsLeftExact(a: Anchor, w: World, w': World, due: int)
    requires Tracks(a, w, due) && Consistent(w') && w'.boot == w.boot && w.t <= w'.t
    requires a.uptime > w'.t - w'.boot
    ensures SecondsLeft(a, Read(w')) == Rounded(a.uptime - (w'.t - w'.boot))
  {
  }

  predicate Recorded(m: Machine) {
    (m.Countdown? ==> m.deadline.epoch > 0) && (m.Vacation? ==> m.end.epoch > 0)
  }

  /** Power never fails while the instant being waited for is known to the uptime clock alone. */
  predicate RecordedAtPowerLoss(m: Machine, cfg: Config, ms: seq<Moment>)
    decreases |ms|
  {
    ms == [] ||
    (&& (ms[0].s.PowerCycle? ==> Recorded(m))
     && var o := React(m, cfg, ms[0].s, Read(ms[0].w));
        RecordedAtPowerLoss(o.machine, o.cfg, ms[1..]))
  }

  /** The run ends in a tick with a set clock, 1.5 s or more after `due`. */
  predicate LateTick(ms: seq<Moment>, due: int) {
    ms != [] &&
    var x := ms[|ms| - 1];
    x.s == Cmd(Tick) && TimeIsValid(x.w.wall) && x.w.t >= due + 1_500_000
  }

  /** One passive step of a countdown that stands for `due`. */
  lemma CountdownStep(m: Machine, cfg: Config, prev: World, x: Moment, due: int)
    requires m.Countdown? && Tracks(m.deadline, prev, due)
    requires Chronicle(prev, [x]) && Passive(x.s)
    requires x.s.PowerCycle? ==> m.deadline.epoch > 0
    ensures var m' := React(m, cfg, x.s, Read(x.w)).machine;
            if m'.Countdown? then Tracks(m'.deadline, x.w, due)
            else m'.Triggered? && x.w.t > due - 1_500_000
    ensures x.s == Cmd(Tick) && x.w.t >= due + 1_500_000 && (TimeIsValid(x.w.wall) || m.deadline.uptime > 0)
            ==> React(m, cfg, x.s, Read(x.w)).machine == Triggered
  {
    var r := Read(x.w);
    if x.s.PowerCycle? {
      ForgottenTracks(m.deadline, prev, x.w, due);
      var a0 := Anchor(m.deadline.epoch, 0);
      if !Due(a0, r) {
        KeptTracks(a0, x.w, x.w, due, 0);
      }
    } else if x.s.c.Tick? {
      DueWindow(m.deadline, prev, x.w, due);
      if !Due(m.deadline, r) {
        if m.deadline.uptime > 0 {
          SecondsLeftExact(m.deadline, prev, x.w, due);
          KeptTracks(m.deadline, prev, x.w, due, SecondsLeft(m.deadline, r));
        } else {
          KeptTracks(m.deadline, prev, x.w, due, 0);
        }
      }
    }
  }

  lemma {:induction false} CountdownRun(m: Machine, cfg: Config, prev: World, ms: seq<Moment>, due: int)
    requires if m.Countdown? then Tracks(m.deadline, prev, due) else m.Triggered? && prev.t > due - 1_500_000
    requires Chronicle(prev, ms) && RecordedAtPowerLoss(m, cfg, ms)
    requires forall x <- ms :: Passive(x.s)
    ensures var m' := Run(m, cfg, ms).machine;
            var last := LastWorld(prev, ms);
            if m'.Countdown? then Tracks(m'.deadline, last, due)
            else m'.Triggered? && last.t > due - 1_500_000
    ensures LateTick(ms, due) ==> Run(m, cfg, ms).machine == Triggered
    decreases |ms|
  {
    if ms != [] {
      var x := ms[0];
      var o := React(m, cfg, x.s, Read(x.w));
      assert x in ms && forall y <- ms[1..] :: y in ms;
      if m.Countdown? {
        CountdownStep(m, cfg, prev, x, due);
      }
      CountdownRun(o.machine, o.cfg, x.w, ms[1..], due);
    }
  }

  /** A countdown with a recorded deadline has it recorded at every power loss of a passive run. */
  lemma {:induction false} RecordedThroughout(m: Machine, cfg: Config, ms: seq<Moment>)
    requires Secure(m) && forall x <- ms :: Passive(x.s)
    ensures RecordedAtPowerLoss(m, cfg, ms)
    decreases |ms|
  {
    if ms != [] {
      assert ms[0] in ms && forall x <- ms[1..] :: x in ms;
      SecureStep(m, cfg, ms[0]);
      var o := React(m, cfg, ms[0].s, Read(ms[0].w));
      RecordedThroughout(o.machine, o.cfg, ms[1..]);
    }
  }

  /**
   * Started at `w0`, the timer triggers no earlier than 1.5 s before the true deadline, and any
   * tick with a set clock 1.5 s after it finds the timer triggered, however many power cycles,
   * clock settings and configuration changes lie between. If the clock was not set at the start,
   * power may only fail once it has been set and a tick has recorded the deadline.
   */
  lemma DeadlineNeverDrifts(m: Machine, cfg: Config, w0: World, ms: seq<Moment>)
    requires Consistent(w0) && ConfigOk(cfg)
    requires Chronicle(w0, ms) && forall x <- ms :: Passive(x.s)
    requires TimeIsValid(w0.wall) || RecordedAtPowerLoss(Apply(m, cfg, Start, Read(w0)).machine, cfg, ms)
    ensures var due := w0.t + TotalDuration(cfg) * SECOND;
            var m' := Run(Apply(m, cfg, Start, Read(w0)).machine, cfg, ms).machine;
            && (m'.Countdown? || m'.Triggered?)
            && (m'.Triggered? ==> LastWorld(w0, ms).t > due - 1_500_000)
            && (LateTick(ms, due) ==> m'.Triggered?)
  {
    var total := TotalDuration(cfg);
    assert 0 < total <= 86400 * 60;
    ArmedTracks(w0, total);
    if TimeIsValid(w0.wall) {
      RecordedThroughout(Apply(m, cfg, Start, Read(w0)).machine, cfg, ms);
    }
    CountdownRun(Apply(m, cfg, Start, Read(w0)).machine, cfg, w0, ms, w0.t + total * SECOND);
  }

  // ---------------------------------------------------------------- vacations freeze the countdown

  /** Everything that may happen during a vacation short of starting or stopping the timer. */
  predicate DuringVacation(s: Stimulus) {
    Passive(s) || s.c.Reset? || s.c.VacSet?
  }

  predicate Frozen(m: Machine, saved: nat, fired: set<nat>) {
    m.Vacation? && m.saved == saved && m.fired == fired
  }

  /** One step of a vacation: it goes on unchanged, or the countdown resumes with exactly what was saved. */
  lemma VacationStep(m: Machine, cfg: Config, prev: World, x: Moment, due: int)
    requires m.Vacation? && m.saved > 0 && Tracks(m.end, prev, due)
    requires Chronicle(prev, [x]) && DuringVacation(x.s)
    requires x.s.PowerCycle? ==> m.end.epoch > 0
    ensures var m' := React(m, cfg, x.s, Read(x.w)).machine;
            if Frozen(m', m.saved, m.fired) then
              && Tracks(m'.end, x.w, due) && (m.end.epoch > 0 ==> m'.end.epoch > 0)
              && (x.s == Cmd(Tick) && TimeIsValid(x.w.wall) ==> x.w.t < due + 1_500_000)
            else
              && m' == Countdown(Armed(Read(x.w), m.saved), m.fired)
              && (x.s == Cmd(VacCancel) || x.w.t > due - 1_500_000)
  {
    var r := Read(x.w);
    if x.s.PowerCycle? {
      var a0 := Anchor(m.end.epoch, 0);
      ForgottenTracks(m.end, prev, x.w, due);
      DueWindow(a0, x.w, x.w, due);
      if !Due(a0, r) {
        KeptTracks(a0, x.w, x.w, due, 0);
      }
    } else if x.s.c.Tick? {
      DueWindow(m.end, prev, x.w, due);
      if !Due(m.end, r) {
        KeptTracks(m.end, prev, x.w, due, if m.end.uptime > 0 then Rounded(m.end.uptime - r.us) else 0);
      }
    }
  }

  /**
   * A vacation with `saved` seconds left to run lasts for `k` moments with the saved time and
   * the fired alarms untouched; if it ends at all, it ends in a countdown of exactly `saved`
   * seconds with the same alarms, by cancellation or not before 1.5 s of its end. Its end is on the wall
   * clock (as when it was entered with a set clock), or becomes so before power fails.
   */
  lemma {:induction false} VacationFreezes(m: Machine, cfg: Config, prev: World, ms: seq<Moment>, due: int)
    returns (k: nat)
    requires m.Vacation? && m.saved > 0 && Tracks(m.end, prev, due)
    requires Chronicle(prev, ms) && (m.end.epoch > 0 || RecordedAtPowerLoss(m, cfg, ms))
    requires forall x <- ms :: DuringVacation(x.s)
    ensures k <= |ms|
    ensures forall j :: 0 <= j <= k ==> Frozen(Run(m, cfg, ms[..j]).machine, m.saved, m.fired)
    ensures forall j :: 0 <= j < k && ms[j].s == Cmd(Tick) && TimeIsValid(ms[j].w.wall) ==> ms[j].w.t < due + 1_500_000
    ensures k < |ms| ==>
              && Run(m, cfg, ms[..k + 1]).machine == Countdown(Armed(Read(ms[k].w), m.saved), m.fired)
              && (ms[k].s == Cmd(VacCancel) || ms[k].w.t > due - 1_500_000)
    decreases |ms|
  {
    if ms == [] {
      return 0;
    }
    var x := ms[0];
    var o := React(m, cfg, x.s, Read(x.w));
    assert x in ms && forall y <- ms[1..] :: y in ms;
    VacationStep(m, cfg, prev, x, due);
    assert ms[..1] == [x];
    assert Run(m, cfg, ms[..1]).machine == o.machine by {
      assert ms[..1][1..] == [];
    }
    if !Frozen(o.machine, m.saved, m.fired) {
      return 0;
    }
    var k' := VacationFreezes(o.machine, o.cfg, x.w, ms[1..], due);
    k := k' + 1;
    forall j | 1 <= j <= |ms|
      ensures Run(m, cfg, ms[..j]).machine == Run(o.machine, o.cfg, ms[1..][..j - 1]).machine
    {
      assert ms[..j][0] == x && ms[..j][1..] == ms[1..][..j - 1];
    }
  }

  /** Entering a vacation from a live countdown satisfies the hypotheses of VacationFreezes. */
  lemma EnteredVacationTracks(a: Anchor, fired: set<nat>, cfg: Config, days: nat, w: World)
    requires Consistent(w) && 1 <= days <= MAX_VACATION_DAYS
    ensures var m := Apply(Countdown(a, fired), cfg, VacSet(days), Read(w)).machine;
            m.Vacation? && m.fired == fired && m.saved == Remaining(Countdown(a, fired), Read(w))
            && Tracks(m.end, w, w.t + days * 86400 * SECOND) && (TimeIsValid(w.wall) ==> m.end.epoch > 0)
  {
    ArmedTracks(w, days * 86400);
  }

  /**
   * The saved time is the time left, to within two seconds, exactly when some clock can tell:
   * after a power cycle with the clock still unset a vacation saves zero and later ends in INACTIVE.
   */
  lemma SavedIsTimeLeft(a: Anchor, fired: set<nat>, w: World, due: int)
    requires Consistent(w) && Tracks(a, w, due) && due - w.t > 2 * SECOND
    ensures var saved := Remaining(Countdown(a, fired), Read(w));
            if a.uptime > 0 || TimeIsValid(w.wall) then due - w.t - 2 * SECOND < saved * SECOND < due - w.t + 2 * SECOND
            else saved == 0
  {
    if a.uptime > 0 {
      SecondsLeftExact(a, w, w, due);
    }
  }

  lemma VacationWithoutClockDisarms(epoch: int, fired: set<nat>, cfg: Config, days: nat, r: Reading, r': Reading)
    requires epoch > 0 && !TimeIsValid(r.epoch)
    ensures var m := Apply(Countdown(Anchor(epoch, 0), fired), cfg, VacSet(days), r).machine;
            Apply(m, cfg, VacCancel, r').machine == Inactive
  {
  }
}
