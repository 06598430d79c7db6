/** The energy storage system: its mode machine, its ramps and its charge, as functions on
    values. */
module PsmStorage {
  import opened PsmDroop

  /** Ramp rates of active or of reactive power, and which of them are enabled. */
  datatype Ramps = Ramps(
    rise: real, drop: real, start: real, stop: real,
    riseEnable: bool, dropEnable: bool, startEnable: bool, stopEnable: bool)

  datatype Config = Config(
    phigh: real, qhigh: real, cap: real, idleloss: real, pesr: real, noise: real,
    pfMode: bool, pfCmd: real, absRampRate: bool, rampEnable: bool, pRamps: Ramps, qRamps: Ramps,
    dactive: Droop, dreactive: Droop)

  datatype Switches = Switches(on: bool, standby: bool, ac: bool, dc: bool, forming: bool)

  datatype Commands = Commands(
    oncmd: bool, offcmd: bool, standbyCmd: bool, acOpen: bool, acClose: bool, dcOpen: bool, dcClose: bool,
    contactorControl: bool, formingCmd: bool, followingCmd: bool, pcmd: real, qcmd: real)

  /** Which start and stop ramps are running. */
  datatype Flags = Flags(pStart: bool, pStop: bool, qStart: bool, qStop: bool)

  datatype Ess = Ess(
    sw: Switches, cmd: Commands, flags: Flags, targetP: real, targetQ: real,
    p: real, q: real, soc: real, pcharge: real, pdischarge: real)

  predicate Stopping(f: Flags) {
    f.pStop || f.qStop
  }

  predicate Starting(f: Flags) {
    f.pStart || f.qStart
  }

  /** What initialisation does to the ramps. */
  function Init(e: Ess): Ess {
    e.(flags := e.flags.(pStart := false, pStop := false))
  }

  // ---- UpdateMode --------------------------------------------------------------------------

  /** Without separate contactor control, on and off commands move both contactors. */
  function Spread(s: Switches, c: Commands): (r: Commands)
    ensures r.pcmd == c.pcmd && r.qcmd == c.qcmd && r.standbyCmd == c.standbyCmd && r.followingCmd == c.followingCmd
    ensures r.formingCmd == c.formingCmd && r.oncmd == c.oncmd && r.offcmd == c.offcmd
  {
    if c.contactorControl then c
    else if !s.on && c.oncmd then c.(acClose := true, dcClose := true)
    else if s.on && c.offcmd then c.(acOpen := true, dcOpen := true)
    else c
  }

  function MoveAc(s: Switches, c: Commands): (r: (Switches, Commands))
    ensures r.0.on == s.on && r.0.standby == s.standby && r.0.forming == s.forming
    ensures r.1.pcmd == c.pcmd && r.1.qcmd == c.qcmd && r.1.standbyCmd == c.standbyCmd && r.1.followingCmd == c.followingCmd
    ensures r.0.dc == s.dc && (s.ac && !r.0.ac ==> r.1.offcmd)
    ensures r.1.formingCmd == c.formingCmd && r.1.oncmd == c.oncmd && (c.offcmd ==> r.1.offcmd)
  {
    if !s.ac && c.acClose then (s.(ac := true), c.(acClose := false))
    else if s.ac && c.acOpen then (s.(ac := false), c.(acOpen := false, offcmd := true))
    else (s, c)
  }

  function MoveDc(s: Switches, c: Commands): (r: (Switches, Commands))
    ensures r.0.on == s.on && r.0.standby == s.standby && r.0.forming == s.forming
    ensures r.1.pcmd == c.pcmd && r.1.qcmd == c.qcmd && r.1.standbyCmd == c.standbyCmd && r.1.followingCmd == c.followingCmd
    ensures r.0.ac == s.ac && (s.dc && !r.0.dc ==> r.1.offcmd)
    ensures r.1.formingCmd == c.formingCmd && r.1.oncmd == c.oncmd && (c.offcmd ==> r.1.offcmd)
  {
    if !s.dc && c.dcClose then (s.(dc := true), c.(dcClose := false))
    else if s.dc && c.dcOpen then (s.(dc := false), c.(dcOpen := false, offcmd := true))
    else (s, c)
  }

  function MoveForming(s: Switches, c: Commands): (r: (Switches, Commands))
    ensures r.0.on == s.on && r.0.standby == s.standby && (r.0.forming ==> s.forming || c.formingCmd)
    ensures r.1.pcmd == c.pcmd && r.1.qcmd == c.qcmd && r.1.standbyCmd == c.standbyCmd && r.0.ac == s.ac && r.0.dc == s.dc
    ensures r.1.oncmd == c.oncmd && r.1.offcmd == c.offcmd
  {
    if c.formingCmd then (s.(forming := true), c.(formingCmd := false))
    else if c.followingCmd && s.forming then (s.(forming := false), c.(followingCmd := false))
    else (s, c)
  }

  function Contactors(s: Switches, c: Commands): (Switches, Commands) {
    var (s1, c1) := MoveAc(s, Spread(s, c));
    var (s2, c2) := MoveDc(s1, c1);
    MoveForming(s2, c2)
  }

  datatype Move = Move(sw: Switches, cmd: Commands, onTransition: bool, offTransition: bool)

  /** On is refused while a stop ramp runs; off also stops a running stop ramp's unit. */
  function Transition(s: Switches, c: Commands, stopping: bool): Move {
    if c.oncmd && (!s.on || s.standby) && s.ac && s.dc && !stopping then
      Move(s.(on := true, standby := false), c.(oncmd := false), true, false)
    else if (s.on || stopping) && c.offcmd then
      Move(s.(on := false, standby := false), c.(offcmd := false), false, true)
    else Move(s, c, false, false)
  }

  function GoStandby(m: Move): (r: Move)
    ensures r.onTransition == m.onTransition && r.offTransition == m.offTransition
    ensures r.cmd.pcmd == m.cmd.pcmd && r.cmd.qcmd == m.cmd.qcmd
  {
    if m.sw.on && m.cmd.standbyCmd then m.(sw := m.sw.(standby := true), cmd := m.cmd.(standbyCmd := false)) else m
  }

  function StopFlag(stop: bool, m: Move, enabled: bool, power: real): bool {
    enabled && (stop || m.offTransition) && !m.onTransition && power != 0.0
  }

  function StartFlag(start: bool, m: Move, enabled: bool, changed: bool): bool {
    enabled && (start || m.onTransition) && !m.offTransition && (changed ==> m.onTransition)
  }

  function NextFlags(f: Flags, m: Move, c: Config, p: real, q: real, targetP: real, targetQ: real): Flags {
    if m.sw.forming then f
    else Flags(
      StartFlag(f.pStart, m, c.pRamps.startEnable || c.rampEnable, m.cmd.pcmd != targetP),
      StopFlag(f.pStop, m, c.pRamps.stopEnable || c.rampEnable, p),
      StartFlag(f.qStart, m, c.qRamps.startEnable || c.rampEnable, m.cmd.qcmd != targetQ),
      StopFlag(f.qStop, m, c.qRamps.stopEnable || c.rampEnable, q))
  }

  function Target(m: Move, cmd: real, was: real): real {
    if m.onTransition then cmd else if m.offTransition then 0.0 else was
  }

  function Moved(e: Ess): Move {
    var (s, c) := Contactors(e.sw, e.cmd);
    GoStandby(Transition(s, c, Stopping(e.flags)))
  }

  function UpdateMode(e: Ess, c: Config): Ess {
    var m := Moved(e);
    var tp, tq := Target(m, m.cmd.pcmd, e.targetP), Target(m, m.cmd.qcmd, e.targetQ);
    var flags := NextFlags(e.flags, m, c, e.p, e.q, tp, tq);
    e.(sw := m.sw, cmd := m.cmd, flags := flags,
       targetP := if Stopping(flags) then tp else m.cmd.pcmd,
       targetQ := if Stopping(flags) then tq else m.cmd.qcmd)
  }

  // ---- DistributeVoltage ----------------------------------------------------------------------

  function DistributeVoltage(e: Ess, v: real): Ess {
    if v <= 0.0 then
      e.(sw := e.sw.(on := false, standby := false), cmd := e.cmd.(oncmd := false, offcmd := false, standbyCmd := false))
    else e
  }

  // ---- CalculateState ----------------------------------------------------------------------------

  /** The rate of the ramp that is in force on one axis; zero if there is none. */
  function RampRate(power: real, target: real, starting: bool, stopping: bool, r: Ramps, rampEnable: bool): real {
    if starting then r.start
    else if stopping then r.stop
    else if power < target && (r.riseEnable || rampEnable) then r.rise
    else if power > target && (r.dropEnable || rampEnable) then r.drop
    else 0.0
  }

  predicate Ramping(power: real, target: real, starting: bool, r: Ramps, rampEnable: bool) {
    starting || (power < target && (r.riseEnable || rampEnable)) || (power > target && (r.dropEnable || rampEnable))
  }

  /** The command of one axis after its ramp. A running stop ramp goes to zero. */
  function Ramped(power: real, target: real, starting: bool, stopping: bool, r: Ramps, c: Config, high: real, dt: real): real {
    var rate := Rate(RampRate(power, target, starting, stopping, r, c.rampEnable), c.absRampRate, high);
    if stopping then GetSlew(power, 0.0, rate, dt)
    else if Ramping(power, target, starting, r, c.rampEnable) then GetSlew(power, target, rate, dt)
    else target
  }

  /** Ramp rates are percent of rated power per second, or thousands per minute. */
  function Rate(x: real, absolute: bool, high: real): real {
    if absolute then x * 1000.0 / 60.0 else x / 100.0 * high
  }

  function Clamp(x: real, low: real, high: real): real {
    if x > high then high else if x < low then low else x
  }

  /** Losses at a power, and the integration of the charge they and the power cause. */
  function Loss(c: Config, p: real): real {
    c.idleloss + c.pesr * (p * p)
  }

  function Charge(soc: real, p: real, c: Config, dt: real): (i: Integral)
    requires c.cap != 0.0 && dt != 0.0
    ensures !(i.over && i.under)
  {
    GetIntegral(soc / 100.0, -(p + Loss(c, p)) / c.cap, dt / 3600.0, 0.0, 1.0)
  }

  predicate Running(e: Ess) {
    (e.sw.on || Stopping(e.flags)) && !e.sw.standby
  }

  /** What is delivered when the charge moves at a rate and losses are taken off. */
  function DeliveredAt(rate: real, cap: real, loss: real): real {
    -rate * cap - loss
  }

  /** The power that keeps the charge within its bounds. */
  function LimitedPower(p: real, i: Integral, c: Config): real {
    if i.over || i.under then DeliveredAt(i.rate, c.cap, Loss(c, p)) else p
  }

  function PowerCommand(e: Ess, c: Config, dt: real): real {
    var p := Ramped(e.p, e.targetP, e.flags.pStart, e.flags.pStop, c.pRamps, c, c.phigh, dt);
    Clamp(Clamp(p, -c.phigh, c.phigh), -e.pcharge, e.pdischarge)
  }

  function ReactiveCommand(e: Ess, c: Config, dt: real): real {
    Clamp(Ramped(e.q, e.targetQ, e.flags.qStart, e.flags.qStop, c.qRamps, c, c.qhigh, dt), -c.qhigh, c.qhigh)
  }

  /** Grid following: the output power and reactive power. The draws are the noise. */
  function CalculateState(e: Ess, c: Config, dt: real, pfToQ: (real, real) -> real, drawP: real, drawQ: real): Ess
    requires c.cap != 0.0 && dt != 0.0
  {
    if e.sw.forming then e
    else
      var pcmd := PowerCommand(e, c, dt);
      var p := pcmd + PowerNoise(drawP, c.noise);
      var q := (if c.pfMode then pfToQ(pcmd, c.pfCmd) else ReactiveCommand(e, c, dt)) + PowerNoise(drawQ, c.noise);
      if Running(e) then
        var i := Charge(e.soc, p, c, dt);
        e.(p := LimitedPower(p, i, c), q := q,
           pcharge := if i.over then 0.0 else c.phigh, pdischarge := if i.under then 0.0 else c.phigh)
      else e.(p := 0.0, q := 0.0)
  }

  // ---- UpdateState -----------------------------------------------------------------------------------

  function UpdateState(e: Ess, c: Config, f: real, v: real, dt: real): Ess
    requires c.cap != 0.0 && dt != 0.0
  {
    if !Running(e) then e.(p := 0.0, q := 0.0)
    else
      var p := if e.sw.forming then GetY(f, c.dactive.slope, c.dactive.offset) else e.p;
      var q := if e.sw.forming then GetY(v, c.dreactive.slope, c.dreactive.offset) else e.q;
      var i := Charge(e.soc, p, c, dt);
      e.(p := LimitedPower(p, i, c), q := q, soc := i.accumulated * 100.0,
         pcharge := if i.over then 0.0 else c.phigh, pdischarge := if i.under then 0.0 else c.phigh)
  }
}
