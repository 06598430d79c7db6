/** The battery management system: its rack and contactor machine, and the energy its
    racks hold, as functions on values. */
module PsmBattery {
  import opened PsmDroop

  datatype Rack = Rack(
    vdc: real, idc: real, cap: real, idleloss: real, pesr: real, p: real, pdc: real, soc: real,
    dcContactor: bool, dcContactorOpenCmd: bool, dcContactorCloseCmd: bool,
    enabled: bool, enableCmd: bool, disableCmd: bool)

  /** On, off and main contactor: status and commands. */
  datatype Switches = Switches(
    on: bool, oncmd: bool, offcmd: bool,
    dcContactor: bool, dcContactorOpenCmd: bool, dcContactorCloseCmd: bool)

  datatype Alarms = Alarms(fault: bool, warning: bool, reset: bool, disableFault: bool, faultskip: bool)

  datatype Battery = Battery(
    sbmu: seq<Rack>, vdc: real, p: real, pdc: real, soc: real,
    numRacks: int, numRacksEnabled: int, contactorClsDeltaV: real, contactorClsMaxI: real,
    sw: Switches, alarms: Alarms)

  // ---- Initialisation --------------------------------------------------------------------

  function InitRack(r: Rack): Rack {
    r.(dcContactor := false, dcContactorOpenCmd := false, dcContactorCloseCmd := false,
       enabled := true, enableCmd := false, disableCmd := false)
  }

  function InitRacks(racks: seq<Rack>): seq<Rack> {
    seq(|racks|, i requires 0 <= i < |racks| => InitRack(racks[i]))
  }

  function Init(b: Battery): Battery {
    b.(sbmu := InitRacks(b.sbmu),
       numRacks := 0, numRacksEnabled := |b.sbmu|,
       sw := b.sw.(dcContactor := false), alarms := b.alarms.(faultskip := true))
  }

  // ---- UpdateMode ---------------------------------------------------------------------------

  /** Faults and warnings latch until they are reset; the measurements' own verdicts are
      inputs. */
  function Monitored(a: Alarms, lowerFault: bool, lowerWarning: bool): Alarms {
    (if !a.disableFault && !a.faultskip then
       a.(fault := (a.fault && !a.reset) || lowerFault, warning := (a.warning && !a.reset) || lowerWarning, reset := false)
     else a.(fault := false, warning := false, reset := false)).(faultskip := false)
  }

  /** What a fault, or the on and off commands, ask of the contactors. */
  function Asked(s: Switches, a: Alarms): Switches {
    if a.fault && !a.disableFault then
      s.(oncmd := false, dcContactorOpenCmd := s.dcContactorOpenCmd || s.dcContactor)
    else if !s.on && s.oncmd then s.(dcContactorCloseCmd := true)
    else if s.on && s.offcmd then s.(dcContactorOpenCmd := true)
    else s
  }

  function RackEnabling(r: Rack): Rack {
    if !r.enabled && r.enableCmd then r.(enabled := true, enableCmd := false)
    else if r.enabled && r.disableCmd then r.(enabled := false, disableCmd := false)
    else r
  }

  /** One rack's contactor under the battery's commands. */
  function RackContactor(r: Rack, b: Battery): Rack {
    if r.enabled && Abs(r.idc) <= b.contactorClsMaxI then
      if !r.dcContactor && b.sw.dcContactorCloseCmd && (b.numRacks == 0 || r.vdc - b.vdc < b.contactorClsDeltaV)
      then r.(dcContactor := true, dcContactorCloseCmd := false)
      else if r.dcContactor && b.sw.dcContactorOpenCmd
      then r.(dcContactor := false, dcContactorOpenCmd := false)
      else r
    else r
  }

  function Ones(flag: bool): int {
    if flag then 1 else 0
  }

  /** Rack i takes its turn; the counters follow it. */
  function RackTurn(b: Battery, i: nat): Battery
    requires i < |b.sbmu|
  {
    var r := b.sbmu[i];
    var e := RackEnabling(r);
    var c := RackContactor(e, b);
    b.(sbmu := b.sbmu[i := c],
       numRacksEnabled := b.numRacksEnabled + Ones(e.enabled) - Ones(r.enabled),
       numRacks := b.numRacks + Ones(c.dcContactor) - Ones(r.dcContactor))
  }

  /** The first n racks in order. */
  function RackTurns(b: Battery, n: nat): (r: Battery)
    requires n <= |b.sbmu|
    ensures |r.sbmu| == |b.sbmu|
    decreases n
  {
    if n == 0 then b else RackTurn(RackTurns(b, n - 1), n - 1)
  }

  function MainContactor(s: Switches, numRacks: int): Switches {
    if !s.dcContactor && s.dcContactorCloseCmd then s.(dcContactor := numRacks > 0, dcContactorCloseCmd := false)
    else if s.dcContactor && s.dcContactorOpenCmd then s.(dcContactor := false, dcContactorOpenCmd := false, offcmd := true)
    else s
  }

  function Switched(s: Switches): Switches {
    (if s.oncmd && !s.on && s.dcContactor then s.(on := true, oncmd := false)
     else if s.on && s.offcmd then s.(on := false, offcmd := false)
     else s).(dcContactorCloseCmd := false, dcContactorOpenCmd := false)
  }

  /** Commands taken in: the battery as the rack loop meets it. */
  function Prepared(b: Battery, lowerFault: bool, lowerWarning: bool): Battery {
    var alarms := Monitored(b.alarms, lowerFault, lowerWarning);
    b.(alarms := alarms, sw := Asked(b.sw, alarms))
  }

  function UpdateMode(b: Battery, lowerFault: bool, lowerWarning: bool): Battery {
    var a := Prepared(b, lowerFault, lowerWarning);
    var r := RackTurns(a, |a.sbmu|);
    r.(sw := Switched(MainContactor(r.sw, r.numRacks)))
  }

  // ---- The rack machine's invariant -------------------------------------------------------------

  function CountClosed(racks: seq<Rack>): (n: int)
    ensures 0 <= n <= |racks|
  {
    if racks == [] then 0 else CountClosed(racks[..|racks| - 1]) + Ones(racks[|racks| - 1].dcContactor)
  }

  function CountEnabled(racks: seq<Rack>): (n: int)
    ensures 0 <= n <= |racks|
  {
    if racks == [] then 0 else CountEnabled(racks[..|racks| - 1]) + Ones(racks[|racks| - 1].enabled)
  }

  predicate Counted(b: Battery) {
    b.numRacks == CountClosed(b.sbmu) && b.numRacksEnabled == CountEnabled(b.sbmu)
  }

  /** Power flows only through closed contactors. */
  predicate Chained(s: Switches, numRacks: int) {
    (s.on ==> s.dcContactor) && (s.dcContactor ==> numRacks > 0)
  }

  /** The counters are right and the contactors chained. */
  predicate Linked(b: Battery) {
    Counted(b) && Chained(b.sw, b.numRacks)
  }

  lemma {:induction false} CountAfterPut(racks: seq<Rack>, i: nat, r: Rack)
    requires i < |racks|
    ensures CountClosed(racks[i := r]) == CountClosed(racks) + Ones(r.dcContactor) - Ones(racks[i].dcContactor)
    ensures CountEnabled(racks[i := r]) == CountEnabled(racks) + Ones(r.enabled) - Ones(racks[i].enabled)
    decreases |racks|
  {
    hide Ones;
    var n := |racks| - 1;
    if i < n {
      CountAfterPut(racks[..n], i, r);
      assert racks[i := r][..n] == racks[..n][i := r];
    } else {
      assert racks[i := r][..n] == racks[..n];
    }
  }

  lemma RackTurnCounts(b: Battery, i: nat)
    requires i < |b.sbmu| && Counted(b)
    ensures Counted(RackTurn(b, i))
  {
    hide CountClosed, CountEnabled;
    var c := RackContactor(RackEnabling(b.sbmu[i]), b);
    CountAfterPut(b.sbmu, i, c);
  }

  /** A pass over the racks keeps the counters right, and without an open command no
      contactor opens. */
  lemma {:induction false} RackTurnsCount(b: Battery, n: nat)
    requires n <= |b.sbmu| && Counted(b)
    ensures var r := RackTurns(b, n);
      Counted(r) && (!b.sw.dcContactorOpenCmd ==> r.numRacks >= b.numRacks) && r == b.(sbmu := r.sbmu, numRacks := r.numRacks, numRacksEnabled := r.numRacksEnabled)
    decreases n
  {
    hide Counted, RackEnabling;
    if n > 0 {
      RackTurnsCount(b, n - 1);
      RackTurnCounts(RackTurns(b, n - 1), n - 1);
      EnablingKeepsContactor(RackTurns(b, n - 1).sbmu[n - 1]);
    }
  }

  lemma EnablingKeepsContactor(r: Rack)
    ensures RackEnabling(r).dcContactor == r.dcContactor
  {
  }

  predicate Faulted(a: Alarms) {
    a.fault && !a.disableFault
  }

  /** The switches from the commands to the end of the update, for any count of racks that
      fell only under an open command. */
  lemma SwitchesStayChained(s: Switches, a: Alarms, before: int, after: int)
    requires Chained(s, before)
    requires var t := Asked(s, a); t.dcContactorOpenCmd || after >= before
    ensures var end := Switched(MainContactor(Asked(s, a), after));
      Chained(end, after) && (Faulted(a) ==> !end.on)
  {
  }

  /** Every mode update keeps the machine linked, and one that sees a latched fault with
      faults enabled leaves the battery off. */
  lemma UpdateModeKeepsLinked(b: Battery, lowerFault: bool, lowerWarning: bool)
    requires Linked(b)
    ensures var m := UpdateMode(b, lowerFault, lowerWarning);
      Linked(m) && (Faulted(m.alarms) ==> !m.sw.on)
  {
    hide CountClosed, CountEnabled, RackTurns, Monitored, Asked, MainContactor, Switched, Chained;
    var a := Prepared(b, lowerFault, lowerWarning);
    RackTurnsCount(a, |a.sbmu|);
    SwitchesStayChained(b.sw, a.alarms, b.numRacks, RackTurns(a, |a.sbmu|).numRacks);
  }

  lemma {:induction false} InitLinked(b: Battery)
    requires !b.sw.on
    ensures Linked(Init(b))
  {
    FreshRacks(Init(b).sbmu);
  }

  lemma {:induction false} FreshRacks(racks: seq<Rack>)
    requires forall i | 0 <= i < |racks| :: !racks[i].dcContactor && racks[i].enabled
    ensures CountClosed(racks) == 0 && CountEnabled(racks) == |racks|
    decreases |racks|
  {
    if racks != [] {
      FreshRacks(racks[..|racks| - 1]);
    }
  }
}
