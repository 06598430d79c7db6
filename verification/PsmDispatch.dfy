/** What a storage system does with its power commands over a whole tick. */
module PsmDispatch {
  import opened PsmDroop
  import opened PsmStorage
  import opened PsmRamps

  // ---- Which units run -----------------------------------------------------------------------

  /** After the commands and the voltage of the tick the unit is on, in grid following. */
  predicate Runs(e: Ess, t: Turn) {
    Sane(e) && Fits(t)
    && var c := Commanded(e, t);
    c.sw.on && !c.sw.standby && !c.sw.forming
  }

  /** Grid forming is entered on command and left on command. */
  lemma FormingFollowsCommands(e: Ess, t: Turn)
    ensures Commanded(e, t).sw.forming <==> t.cmd.formingCmd || (e.sw.forming && !t.cmd.followingCmd)
  {
    hide MoveAc, MoveDc, Spread, Transition, NextFlags, Target, StopFlag, StartFlag;
    TransitionKeepsForming(Contactors(e.sw, t.cmd).0, Contactors(e.sw, t.cmd).1, Stopping(e.flags));
  }

  lemma TransitionKeepsForming(s: Switches, c: Commands, stopping: bool)
    ensures Transition(s, c, stopping).sw.forming == s.forming
  {
  }

  lemma ContactorsPassStandby(s: Switches, c: Commands)
    ensures Contactors(s, c).1.standbyCmd == c.standbyCmd
  {
    hide MoveAc, MoveDc, MoveForming, Spread;
  }

  /** A unit that stays on is in standby exactly when it is told to be, or was and is not
      switched on again through closed contactors. */
  lemma StandbyFollowsCommands(e: Ess, t: Turn)
    requires Sane(e) && Commanded(e, t).sw.on
    ensures var s := Commanded(e, t).sw;
      s.standby <==> t.cmd.standbyCmd || (e.sw.standby && !(t.cmd.oncmd && s.ac && s.dc))
  {
    hide Contactors, NextFlags, Target, Transition, GoStandby;
    ContactorsKeepModes(e.sw, t.cmd);
    ContactorsKeepCommands(e.sw, t.cmd);
    ContactorsPassStandby(e.sw, t.cmd);
    StandbyAfter(Contactors(e.sw, t.cmd).0, Contactors(e.sw, t.cmd).1, Stopping(e.flags));
  }

  lemma StandbyAfter(s: Switches, c: Commands, stopping: bool)
    requires (s.on ==> !stopping) && (s.standby ==> s.on)
    ensures var m := GoStandby(Transition(s, c, stopping));
      m.sw.ac == s.ac && m.sw.dc == s.dc
      && (m.sw.on ==> (m.sw.standby <==> c.standbyCmd || (s.standby && !(c.oncmd && s.ac && s.dc))))
  {
  }

  lemma OpeningAsksOff(s: Switches, c: Commands)
    ensures var r := Contactors(s, c);
      (s.ac && !r.0.ac) || (s.dc && !r.0.dc) ==> r.1.offcmd
  {
    hide MoveAc, MoveDc, MoveForming, Spread;
  }

  /** A unit whose contactor opens turns off in the same tick. */
  lemma OpeningTurnsOff(e: Ess, t: Turn)
    requires Sane(e)
    ensures var s := Commanded(e, t).sw;
      (e.sw.ac && !s.ac) || (e.sw.dc && !s.dc) ==> !s.on
  {
    hide Contactors, NextFlags, Target;
    ContactorsKeepModes(e.sw, t.cmd);
    OpeningAsksOff(e.sw, t.cmd);
  }

  /** A contactor of a unit that is off, after an on command. */
  predicate ClosesOn(closed: bool, openCmd: bool, closeCmd: bool, contactorControl: bool) {
    if closed then !openCmd else closeCmd || !contactorControl
  }

  lemma ContactorsAfterOn(s: Switches, c: Commands)
    requires !s.on && c.oncmd
    ensures var r := Contactors(s, c).0;
      r.ac == ClosesOn(s.ac, c.acOpen, c.acClose, c.contactorControl)
      && r.dc == ClosesOn(s.dc, c.dcOpen, c.dcClose, c.contactorControl)
  {
    hide MoveForming;
    var (s1, c1) := MoveAc(s, Spread(s, c));
    var (s2, c2) := MoveDc(s1, c1);
    FormingKeepsContactors(s2, c2);
  }

  /** The on command: a unit that is off and runs no stop ramp is on after it if and only
      if it is commanded, has voltage, and both contactors stand closed. */
  lemma OnCommandStarts(e: Ess, t: Turn)
    requires Sane(e) && !e.sw.on && !Stopping(e.flags)
    ensures Commanded(e, t).sw.on <==>
      t.cmd.oncmd && t.v > 0.0
      && ClosesOn(e.sw.ac, t.cmd.acOpen, t.cmd.acClose, t.cmd.contactorControl)
      && ClosesOn(e.sw.dc, t.cmd.dcOpen, t.cmd.dcClose, t.cmd.contactorControl)
  {
    hide Contactors, NextFlags, Target, ClosesOn;
    ContactorsKeepModes(e.sw, t.cmd);
    ContactorsKeepCommands(e.sw, t.cmd);
    if t.cmd.oncmd {
      ContactorsAfterOn(e.sw, t.cmd);
    }
  }

  /** Nothing asks the unit to open or to turn off. */
  predicate Quiet(c: Commands) {
    !c.offcmd && !c.acOpen && !c.dcOpen
  }

  lemma QuietMoves(s: Switches, c: Commands)
    requires Quiet(c)
    ensures Quiet(Spread(s, c)) && Spread(s, c).standbyCmd == c.standbyCmd
    ensures Quiet(MoveAc(s, c).1) && MoveAc(s, c).1.standbyCmd == c.standbyCmd
    ensures Quiet(MoveDc(s, c).1) && MoveDc(s, c).1.standbyCmd == c.standbyCmd
    ensures Quiet(MoveForming(s, c).1) && MoveForming(s, c).1.standbyCmd == c.standbyCmd
  {
  }

  lemma QuietContactors(s: Switches, c: Commands)
    requires Quiet(c)
    ensures !Contactors(s, c).1.offcmd && Contactors(s, c).1.standbyCmd == c.standbyCmd
  {
    hide MoveAc, MoveDc, MoveForming, Spread;
    QuietMoves(s, c);
    QuietMoves(s, Spread(s, c));
    var (s1, c1) := MoveAc(s, Spread(s, c));
    QuietMoves(s1, c1);
    var (s2, c2) := MoveDc(s1, c1);
    QuietMoves(s2, c2);
  }

  /** Without an off, open, standby or grid-forming command a running unit keeps running
      while it has voltage. */
  lemma StaysRunning(e: Ess, t: Turn)
    requires Sane(e) && Fits(t) && e.sw.on && !e.sw.standby && !e.sw.forming && t.v > 0.0
    requires Quiet(t.cmd) && !t.cmd.standbyCmd && !t.cmd.formingCmd
    ensures Runs(e, t)
  {
    hide Contactors, NextFlags, Target;
    ContactorsKeepModes(e.sw, t.cmd);
    QuietContactors(e.sw, t.cmd);
  }

  /** A unit that is off or in standby delivers nothing and keeps its charge. */
  lemma RestingUnit(e: Ess, t: Turn)
    requires Fits(t)
    requires var c := Commanded(e, t); !(c.sw.on || Stopping(c.flags)) || c.sw.standby
    ensures Tick(e, t).p == 0.0 && Tick(e, t).q == 0.0 && Tick(e, t).soc == e.soc
  {
    hide UpdateMode, PowerCommand, ReactiveCommand, Charge, GetY, LimitedPower;
    CommandsKeepPower(e, t);
  }

  lemma CommandsKeepPower(e: Ess, t: Turn)
    ensures var c := Commanded(e, t);
      c.p == e.p && c.q == e.q && c.soc == e.soc && c.pcharge == e.pcharge && c.pdischarge == e.pdischarge
  {
    hide Moved, NextFlags, Target;
  }

  // ---- Targets and start ramps -----------------------------------------------------------------

  lemma ContactorsKeepSetpoints(s: Switches, c: Commands)
    ensures Contactors(s, c).1.pcmd == c.pcmd && Contactors(s, c).1.qcmd == c.qcmd
  {
    hide MoveAc, MoveDc, MoveForming, Spread;
  }

  /** The unit leaves standby or comes on in this tick. */
  predicate TurnsOn(e: Ess) {
    !e.sw.on || e.sw.standby
  }

  lemma OnTransitionIs(s: Switches, c: Commands, stopping: bool)
    requires s.standby ==> s.on
    ensures var m := GoStandby(Transition(s, c, stopping));
      m.sw.on && !m.sw.standby ==>
        (m.onTransition <==> !s.on || s.standby) && !m.offTransition && m.cmd.pcmd == c.pcmd && m.cmd.qcmd == c.qcmd
  {
  }

  /** A start ramp is in force on an axis: enabled, begun when the unit turned on, and not
      yet left by a changed command. */
  predicate InStartRamp(e: Ess, was: bool, enabled: bool, command: real, target: real) {
    enabled && (TurnsOn(e) || (was && command == target))
  }

  /** What a running unit aims at, and its start ramps. */
  lemma RunningAims(e: Ess, t: Turn)
    requires Runs(e, t)
    ensures var c := Commanded(e, t);
      c.targetP == t.cmd.pcmd && c.targetQ == t.cmd.qcmd && !Stopping(c.flags)
      && (c.flags.pStart <==> InStartRamp(e, e.flags.pStart, t.cfg.pRamps.startEnable || t.cfg.rampEnable, t.cmd.pcmd, e.targetP))
      && (c.flags.qStart <==> InStartRamp(e, e.flags.qStart, t.cfg.qRamps.startEnable || t.cfg.rampEnable, t.cmd.qcmd, e.targetQ))
  {
    hide Contactors, Transition, GoStandby;
    var d := e.(cmd := t.cmd);
    UpdateModeKeepsSane(d, t.cfg);
    ContactorsKeepModes(d.sw, d.cmd);
    ContactorsKeepSetpoints(d.sw, d.cmd);
    var (s, c) := Contactors(d.sw, d.cmd);
    OnTransitionIs(s, c, Stopping(d.flags));
  }

  // ---- Where a command leads -----------------------------------------------------------------------

  function Less(a: real, b: real): real {
    if a < b then a else b
  }

  /** How far a ramp goes in one tick: thousands per minute, or percent of rated power per
      second. */
  function PerTick(x: real, c: Config, high: real, dt: real): real {
    (if c.absRampRate then x * 1000.0 / 60.0 else x / 100.0 * high) * dt
  }

  /** One axis moves from a power towards its command: by the step of the ramp in force or
      onto the command, or at once when no ramp is in force. */
  predicate Leads(was: real, command: real, starting: bool, r: Ramps, c: Config, high: real, dt: real, to: real) {
    var rising := was < command && (r.riseEnable || c.rampEnable);
    var dropping := was > command && (r.dropEnable || c.rampEnable);
    (starting && was < command ==> to == was + Less(command - was, PerTick(r.start, c, high, dt)))
    && (starting && was >= command ==> to == was - Less(was - command, PerTick(r.start, c, high, dt)))
    && (!starting && rising ==> to == was + Less(command - was, PerTick(r.rise, c, high, dt)))
    && (!starting && dropping ==> to == was - Less(was - command, PerTick(r.drop, c, high, dt)))
    && (!starting && !rising && !dropping ==> to == command)
  }

  lemma SlewIs(was: real, command: real, rate: real, dt: real)
    ensures GetSlew(was, command, rate, dt) ==
      if was < command then was + Less(command - was, rate * dt) else was - Less(was - command, rate * dt)
  {
  }

  lemma PerTickIs(x: real, c: Config, high: real, dt: real)
    ensures PerTick(x, c, high, dt) == Rate(x, c.absRampRate, high) * dt
  {
  }

  lemma RampLeads(was: real, command: real, starting: bool, r: Ramps, c: Config, high: real, dt: real, to: real)
    requires Leads(was, command, starting, r, c, high, dt, to)
    ensures Ramped(was, command, starting, false, r, c, high, dt) == to
  {
    hide GetSlew, PerTick, Rate, Less;
    var x := RampRate(was, command, starting, false, r, c.rampEnable);
    SlewIs(was, command, Rate(x, c.absRampRate, high), dt);
    PerTickIs(x, c, high, dt);
  }

  /** Within the rating and the charge limits. */
  predicate Allowed(z: real, e: Ess, c: Config) {
    -c.phigh <= z <= c.phigh && -e.pcharge <= z <= e.pdischarge
  }

  /** The allowed power nearest to the one a command leads to. */
  ghost predicate Nearest(y: real, x: real, e: Ess, c: Config) {
    Allowed(y, e, c) && forall z :: Allowed(z, e, c) ==> Abs(x - y) <= Abs(x - z)
  }

  lemma ClampIsNearest(y: real, x: real, e: Ess, c: Config)
    requires Nearest(y, x, e, c)
    ensures Clamp(Clamp(x, -c.phigh, c.phigh), -e.pcharge, e.pdischarge) == y
  {
    var z := Clamp(Clamp(x, -c.phigh, c.phigh), -e.pcharge, e.pdischarge);
    assert Allowed(z, e, c);
  }

  /** The charge that a power and its losses would leave after one tick, as a fraction. */
  function LeftBy(soc: real, p: real, c: Config, dt: real): real
    requires c.cap != 0.0
  {
    soc / 100.0 - (p + (c.idleloss + c.pesr * (p * p))) / c.cap * (dt / 3600.0)
  }

  predicate HasRoom(soc: real, p: real, c: Config, dt: real)
    requires c.cap != 0.0
  {
    0.0 <= LeftBy(soc, p, c, dt) <= 1.0
  }

  lemma LeftIs(soc: real, p: real, c: Config, dt: real)
    requires c.cap != 0.0
    ensures LeftBy(soc, p, c, dt) == soc / 100.0 - (p + Loss(c, p)) / c.cap * (dt / 3600.0)
  {
  }

  lemma ChargeIs(soc: real, p: real, c: Config, dt: real)
    requires c.cap != 0.0 && dt != 0.0
    ensures var i, left := Charge(soc, p, c, dt), LeftBy(soc, p, c, dt);
      (i.over <==> left > 1.0) && (i.under <==> left < 0.0)
      && i.accumulated == if left > 1.0 then 1.0 else if left < 0.0 then 0.0 else left
  {
    hide GetIntegral, Loss, LeftBy;
    var drawn, hours := p + Loss(c, p), dt / 3600.0;
    LeftIs(soc, p, c, dt);
    NegatedRate(drawn, c.cap, hours);
    IntegralIs(soc / 100.0, -drawn / c.cap, hours, LeftBy(soc, p, c, dt));
  }

  /** The charge after an update is what the power and its losses leave, held between empty
      and full; a unit that would overfill may not charge in the next tick, one that would
      run empty may not discharge, and every other may do both up to its rating. */
  lemma ChargeAndLimits(e: Ess, c: Config, f: real, v: real, dt: real)
    requires c.cap != 0.0 && dt != 0.0 && Running(e)
    ensures var a := UpdateState(e, c, f, v, dt);
      var left := LeftBy(e.soc, if e.sw.forming then c.dactive.slope * f + c.dactive.offset else e.p, c, dt);
      a.soc == (if left > 1.0 then 1.0 else if left < 0.0 then 0.0 else left) * 100.0
      && a.pcharge == (if left > 1.0 then 0.0 else c.phigh)
      && a.pdischarge == (if left < 0.0 then 0.0 else c.phigh)
  {
    hide Charge, LeftBy, Loss, DeliveredAt;
    ChargeIs(e.soc, if e.sw.forming then GetY(f, c.dactive.slope, c.dactive.offset) else e.p, c, dt);
  }

  /** Active power over a tick: a running unit ends at the allowed power nearest to where
      the ramp in force, or the lack of one, leads from its last power. */
  lemma PowerFollowsCommand(e: Ess, t: Turn, x: real, y: real)
    requires Runs(e, t) && t.cfg.noise == 0.0
    requires var starting := InStartRamp(e, e.flags.pStart, t.cfg.pRamps.startEnable || t.cfg.rampEnable, t.cmd.pcmd, e.targetP);
      Leads(e.p, t.cmd.pcmd, starting, t.cfg.pRamps, t.cfg, t.cfg.phigh, t.dt, x)
    requires Nearest(y, x, e, t.cfg) && HasRoom(e.soc, y, t.cfg, t.dt)
    ensures Tick(e, t).p == y
    ensures t.cfg.pfMode ==> Tick(e, t).q == t.pfToQ(y, t.cfg.pfCmd)
  {
    hide Commanded, Leads, Nearest, LeftBy, Charge, Ramped, InStartRamp, Clamp, CalculateState, UpdateState, ReactiveCommand;
    var c := Commanded(e, t);
    RunningAims(e, t);
    CommandsKeepPower(e, t);
    RampLeads(e.p, t.cmd.pcmd, c.flags.pStart, t.cfg.pRamps, t.cfg, t.cfg.phigh, t.dt, x);
    ClampIsNearest(y, x, e, t.cfg);
    ChargeIs(e.soc, y, t.cfg, t.dt);
    UnsaturatedPower(c, t);
    ReactiveIs(e, t, y);
  }

  /** The reactive power of a running unit whose active command ends at a power. */
  function ReactiveAt(e: Ess, t: Turn, y: real): real {
    if t.cfg.pfMode then t.pfToQ(y, t.cfg.pfCmd) else ReactiveCommand(Commanded(e, t), t.cfg, t.dt)
  }

  lemma ReactiveIs(e: Ess, t: Turn, y: real)
    requires Runs(e, t) && t.cfg.noise == 0.0
    requires PowerCommand(Commanded(e, t), t.cfg, t.dt) == y
    ensures Tick(e, t).q == ReactiveAt(e, t, y)
  {
    hide Commanded, PowerCommand, ReactiveCommand, Charge, Loss, LimitedPower;
    assert PowerNoise(t.drawQ, 0.0) == 0.0;
  }

  /** Reactive power over a tick: the power factor's, or what its own ramp leads to within
      the rating. */
  lemma ReactiveFollowsCommand(e: Ess, t: Turn, x: real)
    requires Runs(e, t) && t.cfg.noise == 0.0 && !t.cfg.pfMode && t.cfg.qhigh >= 0.0
    requires var starting := InStartRamp(e, e.flags.qStart, t.cfg.qRamps.startEnable || t.cfg.rampEnable, t.cmd.qcmd, e.targetQ);
      Leads(e.q, t.cmd.qcmd, starting, t.cfg.qRamps, t.cfg, t.cfg.qhigh, t.dt, x)
    ensures Tick(e, t).q == if x > t.cfg.qhigh then t.cfg.qhigh else if x < -t.cfg.qhigh then -t.cfg.qhigh else x
  {
    hide Commanded, Leads, Charge, Ramped, InStartRamp, Tick, PowerCommand;
    var c := Commanded(e, t);
    RunningAims(e, t);
    CommandsKeepPower(e, t);
    RampLeads(e.q, t.cmd.qcmd, c.flags.qStart, t.cfg.qRamps, t.cfg, t.cfg.qhigh, t.dt, x);
    ReactiveIs(e, t, PowerCommand(c, t.cfg, t.dt));
  }

  // ---- Without ramps -----------------------------------------------------------------------------

  predicate NoRamps(r: Ramps, c: Config) {
    !r.riseEnable && !r.dropEnable && !r.startEnable && !c.rampEnable
  }

  /** With no ramp enabled a running unit delivers what it is commanded in the same tick, or
      its rating when the command exceeds it. */
  lemma CommandIsReached(e: Ess, t: Turn)
    requires Runs(e, t) && t.cfg.noise == 0.0 && NoRamps(t.cfg.pRamps, t.cfg)
    requires t.cfg.phigh >= 0.0 && e.pcharge == t.cfg.phigh && e.pdischarge == t.cfg.phigh
    ensures var high := t.cfg.phigh;
      var y := if t.cmd.pcmd > high then high else if t.cmd.pcmd < -high then -high else t.cmd.pcmd;
      HasRoom(e.soc, y, t.cfg, t.dt) ==> Tick(e, t).p == y
  {
    hide Commanded, HasRoom, Tick, PerTick;
    var high := t.cfg.phigh;
    var y := if t.cmd.pcmd > high then high else if t.cmd.pcmd < -high then -high else t.cmd.pcmd;
    if HasRoom(e.soc, y, t.cfg, t.dt) {
      PowerFollowsCommand(e, t, t.cmd.pcmd, y);
    }
  }

  lemma ReactiveIsReached(e: Ess, t: Turn)
    requires Runs(e, t) && t.cfg.noise == 0.0 && NoRamps(t.cfg.qRamps, t.cfg) && !t.cfg.pfMode
    requires -t.cfg.qhigh <= t.cmd.qcmd <= t.cfg.qhigh
    ensures Tick(e, t).q == t.cmd.qcmd
  {
    hide Runs, Tick, PerTick;
    ReactiveFollowsCommand(e, t, t.cmd.qcmd);
  }

  // ---- Grid forming ------------------------------------------------------------------------------

  lemma LineIs(x: real, d: Droop)
    ensures GetY(x, d.slope, d.offset) == d.slope * x + d.offset
  {
  }

  /** A running grid-forming unit delivers what its droop lines give at the frequency and
      the voltage shared by its island. */
  lemma FormingFollowsDroop(e: Ess, t: Turn)
    requires Fits(t)
    requires var c := Commanded(e, t); (c.sw.on || Stopping(c.flags)) && !c.sw.standby && c.sw.forming
    requires HasRoom(e.soc, t.cfg.dactive.slope * t.sharedF + t.cfg.dactive.offset, t.cfg, t.dt)
    ensures Tick(e, t).p == t.cfg.dactive.slope * t.sharedF + t.cfg.dactive.offset
    ensures Tick(e, t).q == t.cfg.dreactive.slope * t.sharedV + t.cfg.dreactive.offset
  {
    hide Commanded, HasRoom, GetY, Tick;
    LineIs(t.sharedF, t.cfg.dactive);
    LineIs(t.sharedV, t.cfg.dreactive);
    FormingUpdates(e, t, t.cfg.dactive.slope * t.sharedF + t.cfg.dactive.offset);
  }

  lemma FormingUpdates(e: Ess, t: Turn, p: real)
    requires Fits(t) && p == GetY(t.sharedF, t.cfg.dactive.slope, t.cfg.dactive.offset)
    requires var c := Commanded(e, t); Running(c) && c.sw.forming
    requires HasRoom(e.soc, p, t.cfg, t.dt)
    ensures Tick(e, t).p == p
    ensures Tick(e, t).q == GetY(t.sharedV, t.cfg.dreactive.slope, t.cfg.dreactive.offset)
  {
    hide Commanded, Charge, LeftBy, Loss, GetY, PowerCommand, ReactiveCommand;
    CommandsKeepPower(e, t);
    ChargeIs(e.soc, p, t.cfg, t.dt);
  }
}
