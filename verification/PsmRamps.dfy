/** What the storage system's mode machine keeps in every run, and how a stop ramp brings
    its power to zero. */
module PsmRamps {
  import opened PsmDroop
  import opened PsmStorage

  /** What one tick brings: the configuration and commands in force, the voltage passed
      down, the load share and the random draws. */
  datatype Turn = Turn(
    cfg: Config, cmd: Commands, v: real, sharedF: real, sharedV: real, dt: real,
    pfToQ: (real, real) -> real, drawP: real, drawQ: real)

  predicate Fits(t: Turn) {
    t.cfg.cap > 0.0 && t.dt > 0.0
  }

  function Commanded(e: Ess, t: Turn): Ess {
    DistributeVoltage(UpdateMode(e.(cmd := t.cmd), t.cfg), t.v)
  }

  function Tick(e: Ess, t: Turn): Ess
    requires Fits(t)
  {
    var a := CalculateState(Commanded(e, t), t.cfg, t.dt, t.pfToQ, t.drawP, t.drawQ);
    UpdateState(a, t.cfg, t.sharedF, t.sharedV, t.dt)
  }

  function Run(e: Ess, turns: seq<Turn>): Ess
    requires forall i | 0 <= i < |turns| :: Fits(turns[i])
    decreases |turns|
  {
    if turns == [] then e else Tick(Run(e, turns[..|turns| - 1]), turns[|turns| - 1])
  }

  // ---- The mode machine ------------------------------------------------------------------------

  predicate SaneModes(s: Switches, f: Flags) {
    (s.on ==> !Stopping(f)) && !(Starting(f) && Stopping(f)) && (s.standby ==> s.on)
  }

  /** On excludes every stop ramp, start and stop ramps never coexist, and standby is a
      state of a unit that is on. */
  predicate Sane(e: Ess) {
    SaneModes(e.sw, e.flags)
  }

  /** Initialisation clears the ramps of active power only: the unit starts sane exactly
      when its configuration sets no conflicting reactive ramp and no standby of a unit that
      is off. */
  lemma InitSane(e: Ess)
    ensures Sane(Init(e)) <==>
      (e.sw.on ==> !e.flags.qStop) && !(e.flags.qStart && e.flags.qStop) && (e.sw.standby ==> e.sw.on)
  {
  }

  lemma ContactorsKeepModes(s: Switches, c: Commands)
    ensures Contactors(s, c).0.on == s.on && Contactors(s, c).0.standby == s.standby
    ensures Contactors(s, c).0.forming ==> s.forming || c.formingCmd
  {
    hide MoveAc, MoveDc, MoveForming, Spread;
  }

  lemma TransitionKeepsModes(s: Switches, c: Commands, f: Flags)
    requires SaneModes(s, f)
    ensures var m := GoStandby(Transition(s, c, Stopping(f)));
      (m.sw.standby ==> m.sw.on)
      && (m.onTransition ==> !Stopping(f) && m.sw.on && !m.offTransition)
      && (m.offTransition ==> !m.sw.on)
      && (m.sw.on ==> !Stopping(f))
  {
  }

  lemma FlagsStayApart(f: Flags, m: Move, c: Config, p: real, q: real, tp: real, tq: real)
    requires !(Starting(f) && Stopping(f))
    requires m.onTransition ==> !Stopping(f) && m.sw.on && !m.offTransition
    requires m.offTransition ==> !m.sw.on
    requires m.sw.on ==> !Stopping(f)
    ensures var g := NextFlags(f, m, c, p, q, tp, tq);
      !(Starting(g) && Stopping(g)) && (m.sw.on ==> !Stopping(g))
  {
  }

  lemma UpdateModeKeepsSane(e: Ess, c: Config)
    requires Sane(e)
    ensures Sane(UpdateMode(e, c))
  {
    hide Contactors, Transition, GoStandby, NextFlags, Target;
    ContactorsKeepModes(e.sw, e.cmd);
    var (s, cmd) := Contactors(e.sw, e.cmd);
    TransitionKeepsModes(s, cmd, e.flags);
    var m := Moved(e);
    FlagsStayApart(e.flags, m, c, e.p, e.q, Target(m, m.cmd.pcmd, e.targetP), Target(m, m.cmd.qcmd, e.targetQ));
  }

  lemma PowerPhasesKeepModes(e: Ess, t: Turn)
    requires Fits(t)
    ensures var a := CalculateState(e, t.cfg, t.dt, t.pfToQ, t.drawP, t.drawQ);
      a.sw == e.sw && a.flags == e.flags && a.soc == e.soc
    ensures var b := UpdateState(e, t.cfg, t.sharedF, t.sharedV, t.dt);
      b.sw == e.sw && b.flags == e.flags
  {
    hide PowerCommand, ReactiveCommand, Charge, LimitedPower, GetY;
  }

  lemma TickKeepsSane(e: Ess, t: Turn)
    requires Sane(e) && Fits(t)
    ensures Sane(Tick(e, t))
  {
    hide UpdateMode, CalculateState, UpdateState;
    UpdateModeKeepsSane(e.(cmd := t.cmd), t.cfg);
    var c := Commanded(e, t);
    PowerPhasesKeepModes(c, t);
    PowerPhasesKeepModes(CalculateState(c, t.cfg, t.dt, t.pfToQ, t.drawP, t.drawQ), t);
  }

  /** In every state of every run, whatever is commanded and configured. */
  lemma {:induction false} RunStaysSane(e: Ess, turns: seq<Turn>)
    requires Sane(e) && forall i | 0 <= i < |turns| :: Fits(turns[i])
    ensures Sane(Run(e, turns))
    decreases |turns|
  {
    hide Tick, Sane;
    if turns != [] {
      RunStaysSane(e, turns[..|turns| - 1]);
      TickKeepsSane(Run(e, turns[..|turns| - 1]), turns[|turns| - 1]);
    }
  }

  // ---- Off against on ------------------------------------------------------------------------------

  /** A contactor stands closed after the commands of the tick. With separate control only
      its own open command opens it; without, any off command to a running unit does. */
  predicate StaysClosed(closed: bool, openCmd: bool, closeCmd: bool, contactorControl: bool) {
    if closed then contactorControl && !openCmd else closeCmd
  }

  /** An on command outdoes an off command in the same tick. */
  predicate OnWins(s: Switches, c: Commands) {
    c.oncmd && s.standby
    && StaysClosed(s.ac, c.acOpen, c.acClose, c.contactorControl)
    && StaysClosed(s.dc, c.dcOpen, c.dcClose, c.contactorControl)
  }

  lemma ContactorsAfterOff(s: Switches, c: Commands)
    requires s.on && c.offcmd
    ensures var r := Contactors(s, c).0;
      r.ac == StaysClosed(s.ac, c.acOpen, c.acClose, c.contactorControl)
      && r.dc == StaysClosed(s.dc, c.dcOpen, c.dcClose, c.contactorControl)
  {
    hide MoveForming;
    var (s1, c1) := MoveAc(s, Spread(s, c));
    var (s2, c2) := MoveDc(s1, c1);
    FormingKeepsContactors(s2, c2);
  }

  lemma FormingKeepsContactors(s: Switches, c: Commands)
    ensures MoveForming(s, c).0.ac == s.ac && MoveForming(s, c).0.dc == s.dc
  {
  }

  /** A running unit that is commanded off stays on exactly when it is in standby, is also
      commanded on, and both its contactors stand closed after the commands. */
  lemma OffOrOn(e: Ess, c: Config)
    requires Sane(e) && e.sw.on && e.cmd.offcmd
    ensures UpdateMode(e, c).sw.on <==> OnWins(e.sw, e.cmd)
  {
    hide Contactors, NextFlags, Target, StaysClosed;
    ContactorsKeepModes(e.sw, e.cmd);
    ContactorsKeepCommands(e.sw, e.cmd);
    ContactorsAfterOff(e.sw, e.cmd);
  }

  /** Without separate contactor control, a running unit with closed contactors always
      obeys the off command. */
  lemma OffAlwaysWinsByDefault(e: Ess, c: Config)
    requires Sane(e) && e.sw.on && e.cmd.offcmd && e.sw.ac && e.sw.dc && !e.cmd.contactorControl
    ensures !UpdateMode(e, c).sw.on
  {
    hide UpdateMode;
    OffOrOn(e, c);
  }

  /** An input on which the on command wins: standby, separate contactor control and no
      open command. */
  lemma OnCanWin(e: Ess, c: Config)
    requires e.sw == Switches(true, true, true, true, false) && e.flags == Flags(false, false, false, false)
    requires e.cmd == Commands(true, true, false, false, false, false, false, true, false, false, 0.0, 0.0)
    ensures Sane(e) && UpdateMode(e, c).sw.on
  {
    hide UpdateMode;
    OffOrOn(e, c);
  }

  /** The off command reaches a running unit in grid following and takes effect. */
  predicate OffTakesEffect(e: Ess, c: Commands) {
    Sane(e) && e.sw.on && !e.sw.forming && c.offcmd && !OnWins(e.sw, c)
  }

  /** With its stop ramp enabled, an off command to a running unit starts the ramp exactly
      when the unit switches off. */
  lemma OffStartsRamp(e: Ess, t: Turn)
    requires Sane(e) && e.sw.on && e.p != 0.0 && !e.sw.forming && t.cmd.offcmd && !t.cmd.formingCmd
    requires t.cfg.pRamps.stopEnable || t.cfg.rampEnable
    ensures var a := UpdateMode(e.(cmd := t.cmd), t.cfg);
      a.p == e.p && (a.flags.pStop <==> !OnWins(e.sw, t.cmd)) && (a.flags.pStop <==> !a.sw.on)
  {
    hide Contactors, Target, OnWins;
    var d := e.(cmd := t.cmd);
    OffOrOn(d, t.cfg);
    UpdateModeKeepsSane(d, t.cfg);
    ContactorsKeepModes(d.sw, d.cmd);
    ContactorsKeepCommands(d.sw, d.cmd);
    assert UpdateMode(d, t.cfg).flags.pStop == StopFlag(d.flags.pStop, Moved(d), true, d.p);
  }

  lemma ContactorsKeepCommands(s: Switches, c: Commands)
    ensures Contactors(s, c).1.oncmd == c.oncmd
    ensures c.offcmd ==> Contactors(s, c).1.offcmd
  {
    hide MoveAc, MoveDc, MoveForming, Spread;
  }

  // ---- One tick of a stop ramp --------------------------------------------------------------------

  /** The most a stop ramp moves active power in one tick: thousands per minute, or percent
      of rated power per second. */
  function StopStep(c: Config, dt: real): real {
    (if c.absRampRate then c.pRamps.stop * 1000.0 / 60.0 else c.pRamps.stop / 100.0 * c.phigh) * dt
  }

  /** The next power of a stop ramp. */
  function NextPower(p: real, c: Config, dt: real): real {
    GetSlew(p, 0.0, Rate(c.pRamps.stop, c.absRampRate, c.phigh), dt)
  }

  /** The power is within its rating and the charge limits nothing. */
  predicate Unlimited(e: Ess, c: Config) {
    Abs(e.p) <= c.phigh && e.pcharge == c.phigh && e.pdischarge == c.phigh
  }

  /** A unit in grid following that is ramping down. */
  predicate RampingDown(e: Ess, c: Config) {
    Sane(e) && e.flags.pStop && !e.sw.forming && Unlimited(e, c)
  }

  /** The turn finds the unit ramping down, or running and about to obey an off command. */
  predicate Begins(e: Ess, t: Turn) {
    RampingDown(e, t.cfg) || (OffTakesEffect(e, t.cmd) && Unlimited(e, t.cfg))
  }

  /** A turn that lets a stop ramp go on: grid following, live, without noise, at a
      positive and enabled stop rate, and with room for the charge it moves. */
  predicate LetsRamp(e: Ess, t: Turn) {
    Fits(t) && !t.cmd.formingCmd && t.v > 0.0 && t.cfg.noise == 0.0
    && (t.cfg.pRamps.stopEnable || t.cfg.rampEnable) && StopStep(t.cfg, t.dt) > 0.0
    && (var i := Charge(e.soc, NextPower(e.p, t.cfg, t.dt), t.cfg, t.dt); !i.over && !i.under)
  }

  lemma RampStays(e: Ess, t: Turn)
    requires Begins(e, t) && LetsRamp(e, t) && e.p != 0.0
    ensures var c := Commanded(e, t);
      !c.sw.on && !c.sw.standby && !c.sw.forming && c.flags.pStop && !c.flags.pStart
      && c.p == e.p && c.soc == e.soc && c.pcharge == e.pcharge && c.pdischarge == e.pdischarge
  {
    hide Charge, NextPower, StopStep, Target, Contactors, OnWins;
    var d := e.(cmd := t.cmd);
    UpdateModeKeepsSane(d, t.cfg);
    ContactorsKeepModes(d.sw, d.cmd);
    if e.flags.pStop {
      assert StopFlag(d.flags.pStop, Moved(d), true, d.p);
    } else {
      OffStartsRamp(e, t);
    }
  }

  lemma NextPowerShrinks(p: real, c: Config, dt: real)
    requires StopStep(c, dt) > 0.0
    ensures var next := NextPower(p, c, dt);
      Abs(next) == (if Abs(p) <= StopStep(c, dt) then 0.0 else Abs(p) - StopStep(c, dt))
      && (p >= 0.0 ==> next >= 0.0) && (p <= 0.0 ==> next <= 0.0)
  {
    StopStepIsRate(c, dt);
    hide Rate, StopStep;
  }

  lemma StopStepIsRate(c: Config, dt: real)
    ensures StopStep(c, dt) == Rate(c.pRamps.stop, c.absRampRate, c.phigh) * dt
  {
  }

  lemma RampCommands(e: Ess, c: Config, dt: real)
    requires e.flags.pStop && !e.flags.pStart && StopStep(c, dt) > 0.0
    requires Unlimited(e, c)
    ensures PowerCommand(e, c, dt) == NextPower(e.p, c, dt)
  {
    hide Rate, GetSlew, StopStep;
    NextPowerShrinks(e.p, c, dt);
  }

  lemma UnsaturatedPower(e: Ess, t: Turn)
    requires Fits(t) && t.cfg.noise == 0.0 && !e.sw.forming && Running(e)
    requires var i := Charge(e.soc, PowerCommand(e, t.cfg, t.dt), t.cfg, t.dt); !i.over && !i.under
    ensures var a := CalculateState(e, t.cfg, t.dt, t.pfToQ, t.drawP, t.drawQ);
      var b := UpdateState(a, t.cfg, t.sharedF, t.sharedV, t.dt);
      b.p == PowerCommand(e, t.cfg, t.dt) && b.pcharge == t.cfg.phigh && b.pdischarge == t.cfg.phigh
      && b.sw == e.sw && b.flags == e.flags
  {
    hide PowerCommand, ReactiveCommand, Charge, Loss;
    assert PowerNoise(t.drawP, 0.0) == 0.0;
  }

  /** One tick of a stop ramp, the tick of the off command included: active power moves
      towards zero by the step, or onto zero, without changing sign, and the unit is off. */
  lemma RampTick(e: Ess, t: Turn)
    requires Begins(e, t) && LetsRamp(e, t) && e.p != 0.0
    ensures var after := Tick(e, t);
      RampingDown(after, t.cfg) && !after.sw.on && after.p == NextPower(e.p, t.cfg, t.dt)
  {
    hide CalculateState, UpdateState, PowerCommand, Charge, StopStep, NextPower, Commanded, OnWins;
    var c := Commanded(e, t);
    RampStays(e, t);
    RampCommands(c, t.cfg, t.dt);
    UnsaturatedPower(c, t);
    NextPowerShrinks(e.p, t.cfg, t.dt);
    TickKeepsSane(e, t);
  }

  /** The update after the power has reached zero ends the ramp. */
  lemma RampEnds(e: Ess, t: Turn)
    requires e.p == 0.0 && !e.sw.forming && !t.cmd.formingCmd
    ensures !UpdateMode(e.(cmd := t.cmd), t.cfg).flags.pStop
  {
    hide Contactors, Target;
    ContactorsKeepModes(e.sw, t.cmd);
  }

  // ---- Whole stop ramps --------------------------------------------------------------------------------

  /** What is left of a power after it moved some way towards zero. */
  function LeftBy(p: real, way: real): real {
    if Abs(p) <= way then 0.0 else if p > 0.0 then p - way else p + way
  }

  /** How far n steps go. */
  function Way(n: nat, step: real): real {
    n as real * step
  }

  /** What is left of a power after n steps towards zero. */
  function Left(p: real, step: real, n: nat): real {
    LeftBy(p, Way(n, step))
  }

  /** Every turn has the same configuration and time step and lets the ramp go on. */
  predicate IsStopRun(e: Ess, c: Config, dt: real, turns: seq<Turn>)
    decreases |turns|
  {
    turns != [] ==>
      var n := |turns| - 1;
      IsStopRun(e, c, dt, turns[..n]) && (forall i | 0 <= i < n :: Fits(turns[..n][i]))
      && turns[n].cfg == c && turns[n].dt == dt && LetsRamp(Run(e, turns[..n]), turns[n])
  }

  lemma {:induction false} StopRunFits(e: Ess, c: Config, dt: real, turns: seq<Turn>)
    requires IsStopRun(e, c, dt, turns)
    ensures forall i | 0 <= i < |turns| :: Fits(turns[i])
  {
    hide LetsRamp, Run;
    if turns != [] {
      var n := |turns| - 1;
      LetsRampFits(Run(e, turns[..n]), turns[n]);
      forall i | 0 <= i < |turns| ensures Fits(turns[i]) {
        if i < n {
          assert turns[..n][i] == turns[i];
        }
      }
    }
  }

  lemma LetsRampFits(e: Ess, t: Turn)
    requires LetsRamp(e, t)
    ensures Fits(t) && StopStep(t.cfg, t.dt) > 0.0
  {
  }

  lemma LeftAfterStep(p: real, c: Config, dt: real, n: nat)
    requires StopStep(c, dt) > 0.0
    ensures NextPower(Left(p, StopStep(c, dt), n), c, dt) == Left(p, StopStep(c, dt), n + 1)
  {
    hide StopStep, NextPower, LeftBy, Way;
    WayGrows(n, StopStep(c, dt));
    NextLeft(p, Way(n, StopStep(c, dt)), c, dt);
  }

  lemma WayGrows(n: nat, step: real)
    requires step > 0.0
    ensures Way(n, step) >= 0.0 && Way(n + 1, step) == Way(n, step) + step
  {
    assert (n as real + 1.0) * step == n as real * step + step;
  }

  lemma NextLeft(p: real, way: real, c: Config, dt: real)
    requires way >= 0.0 && StopStep(c, dt) > 0.0
    ensures NextPower(LeftBy(p, way), c, dt) == LeftBy(p, way + StopStep(c, dt))
  {
    hide StopStep, NextPower;
    NextPowerShrinks(LeftBy(p, way), c, dt);
    OneStepMore(p, way, StopStep(c, dt), NextPower(LeftBy(p, way), c, dt));
  }

  lemma OneStepMore(p: real, way: real, step: real, next: real)
    requires way >= 0.0 && step > 0.0
    requires var l := LeftBy(p, way);
      Abs(next) == (if Abs(l) <= step then 0.0 else Abs(l) - step) && (l >= 0.0 ==> next >= 0.0) && (l <= 0.0 ==> next <= 0.0)
    ensures next == LeftBy(p, way + step)
  {
  }

  /** The whole ramp, counted from the tick that receives the off command or from any tick
      on the way: while power is left, n ticks take it n steps towards zero with the sign it
      had and the unit off; it is gone after exactly as many ticks as steps fit into it,
      rounded up. */
  lemma {:induction false} StopRampRuns(e: Ess, c: Config, dt: real, turns: seq<Turn>)
    requires turns != [] && Begins(e, turns[0]) && IsStopRun(e, c, dt, turns)
    requires Abs(e.p) > Way(|turns| - 1, StopStep(c, dt))
    ensures forall i | 0 <= i < |turns| :: Fits(turns[i])
    ensures var last := Run(e, turns);
      RampingDown(last, c) && !last.sw.on
      && last.p == Left(e.p, StopStep(c, dt), |turns|)
      && (last.p == 0.0 <==> Way(|turns|, StopStep(c, dt)) >= Abs(e.p))
    decreases |turns|
  {
    hide Tick, LetsRamp, RampingDown, OffTakesEffect, NextPower, StopStep, Fits, Way;
    StopRunFits(e, c, dt, turns);
    var n := |turns| - 1;
    var front := turns[..n];
    var before := Run(e, front);
    LetsRampFits(before, turns[n]);
    FewerSteps(n, StopStep(c, dt), e.p);
    if n > 0 {
      StopRampRuns(e, c, dt, front);
    } else {
      NoWay(e.p, StopStep(c, dt));
    }
    RampTick(before, turns[n]);
    LeftAfterStep(e.p, c, dt, n);
  }

  lemma NoWay(p: real, step: real)
    ensures Left(p, step, 0) == p
  {
  }

  lemma FewerSteps(n: nat, step: real, p: real)
    requires step > 0.0 && Abs(p) > Way(n, step)
    ensures Left(p, step, n) != 0.0
    ensures n > 0 ==> Abs(p) > Way(n - 1, step)
  {
    hide Way;
    WayGrows(n, step);
    if n > 0 {
      WayGrows(n - 1, step);
    }
  }
}
