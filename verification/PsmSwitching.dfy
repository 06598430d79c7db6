/** What the commands of a battery do: faults, racks, contactors and the switch. */
module PsmSwitching {
  import opened PsmDroop
  import opened PsmBattery

  // ---- Faults ------------------------------------------------------------------------------

  /** A fault is present after the update exactly when faults are watched and either a
      measurement reports one or an older one was not reset. */
  lemma FaultLatches(b: Battery, lowerFault: bool, lowerWarning: bool)
    requires Counted(b)
    ensures var a := UpdateMode(b, lowerFault, lowerWarning).alarms;
      var watched := !b.alarms.disableFault && !b.alarms.faultskip;
      (a.fault <==> watched && (lowerFault || (b.alarms.fault && !b.alarms.reset)))
      && (a.warning <==> watched && (lowerWarning || (b.alarms.warning && !b.alarms.reset)))
      && !a.reset && !a.faultskip && a.disableFault == b.alarms.disableFault
  {
    hide RackTurns, Counted, Asked, MainContactor, Switched;
    var a := Prepared(b, lowerFault, lowerWarning);
    CountedPrepared(b, lowerFault, lowerWarning);
    RackTurnsCount(a, |a.sbmu|);
  }

  // ---- Racks ---------------------------------------------------------------------------------

  /** The rack's own commands leave it in service. */
  predicate InService(r: Rack) {
    if r.enabled then !r.disableCmd else r.enableCmd
  }

  /** In service and within the current limit for moving contactors. */
  predicate Movable(r: Rack, b: Battery) {
    InService(r) && -b.contactorClsMaxI <= r.idc <= b.contactorClsMaxI
  }

  /** The update asks closed contactors to open, or open ones to close. */
  predicate AsksOpen(s: Switches, faulted: bool) {
    s.dcContactorOpenCmd || (if faulted then s.dcContactor else s.on && s.offcmd)
  }

  predicate AsksClosed(s: Switches, faulted: bool) {
    s.dcContactorCloseCmd || (!faulted && !s.on && s.oncmd)
  }

  lemma {:induction false} TurnsEach(b: Battery, n: nat, i: nat)
    requires n <= |b.sbmu| && i < |b.sbmu|
    ensures RackTurns(b, n).sbmu[i] == if i < n then RackTurns(b, i + 1).sbmu[i] else b.sbmu[i]
    decreases n
  {
    hide RackEnabling, RackContactor, Ones;
    if n > 0 {
      TurnsEach(b, n - 1, i);
    }
  }

  /** What one rack ends with, for any number of racks closed when its turn comes. */
  ghost predicate RackFollows(r: Rack, s: Rack, b: Battery, faulted: bool) {
    var opens, closes := AsksOpen(b.sw, faulted), AsksClosed(b.sw, faulted);
    s.enabled == InService(r)
    && (!Movable(r, b) ==> s.dcContactor == r.dcContactor)
    && (Movable(r, b) && r.dcContactor ==> s.dcContactor == !opens)
    && (Movable(r, b) && !r.dcContactor ==>
          (s.dcContactor ==> closes) && (closes && r.vdc - b.vdc < b.contactorClsDeltaV ==> s.dcContactor))
  }

  lemma TurnFollows(b: Battery, a: Battery, t: Battery, r: Rack)
    requires a.sw == Asked(b.sw, a.alarms) && t.sw == a.sw && t.vdc == b.vdc
    requires t.contactorClsMaxI == b.contactorClsMaxI && t.contactorClsDeltaV == b.contactorClsDeltaV
    ensures RackFollows(r, RackContactor(RackEnabling(r), t), b, Faulted(a.alarms))
    ensures Movable(r, b) && AsksClosed(b.sw, Faulted(a.alarms)) && t.numRacks == 0 && !r.dcContactor ==>
      RackContactor(RackEnabling(r), t).dcContactor
  {
  }

  /** Every rack after the update: its enabling, and its contactor under the commands. A
      rack out of service or above the current limit does not move. */
  lemma RacksFollow(b: Battery, lowerFault: bool, lowerWarning: bool, i: nat)
    requires Counted(b) && i < |b.sbmu|
    ensures |UpdateMode(b, lowerFault, lowerWarning).sbmu| == |b.sbmu|
    ensures var m := UpdateMode(b, lowerFault, lowerWarning);
      RackFollows(b.sbmu[i], m.sbmu[i], b, Faulted(m.alarms))
  {
    hide RackEnabling, RackContactor, Counted, Asked, MainContactor, Switched, Monitored, RackFollows, RackTurns;
    var a := Prepared(b, lowerFault, lowerWarning);
    CountedPrepared(b, lowerFault, lowerWarning);
    RackTurnsCount(a, |a.sbmu|);
    RackTurnsCount(a, i);
    TurnsEach(a, |a.sbmu|, i);
    TurnsEach(a, i, i);
    TurnAt(a, i);
    TurnFollows(b, a, RackTurns(a, i), b.sbmu[i]);
  }

  lemma CountedPrepared(b: Battery, lowerFault: bool, lowerWarning: bool)
    ensures Counted(Prepared(b, lowerFault, lowerWarning)) == Counted(b)
  {
    hide CountClosed, CountEnabled, Monitored, Asked;
  }

  lemma TurnAt(b: Battery, i: nat)
    requires i < |b.sbmu|
    ensures RackTurns(b, i + 1).sbmu[i] == RackContactor(RackEnabling(RackTurns(b, i).sbmu[i]), RackTurns(b, i))
  {
    hide RackEnabling, RackContactor, Ones;
  }

  // ---- How many racks are closed -------------------------------------------------------------

  ghost predicate AnyMovable(b: Battery, n: nat)
    requires n <= |b.sbmu|
  {
    exists i: nat :: i < n && Movable(b.sbmu[i], b)
  }

  /** One rack's turn without an open command. */
  lemma TurnCloses(b: Battery, i: nat)
    requires i < |b.sbmu| && b.sw.dcContactorCloseCmd && !b.sw.dcContactorOpenCmd
    ensures RackTurn(b, i).numRacks >= b.numRacks
    ensures !Movable(b.sbmu[i], b) ==> RackTurn(b, i).numRacks == b.numRacks
    ensures Movable(b.sbmu[i], b) && b.numRacks == 0 ==> b.sbmu[i].dcContactor || RackTurn(b, i).numRacks == 1
  {
  }

  /** Under a close command and no open command some rack is closed in the end exactly when
      one was closed before or one can move. */
  lemma {:induction false} TurnsClose(b: Battery, n: nat)
    requires n <= |b.sbmu| && Counted(b) && b.sw.dcContactorCloseCmd && !b.sw.dcContactorOpenCmd
    ensures RackTurns(b, n).numRacks > 0 <==> b.numRacks > 0 || AnyMovable(b, n)
    ensures RackTurns(b, n).numRacks >= b.numRacks
    decreases n
  {
    hide RackTurn, Counted, Movable;
    RackTurnsCount(b, n);
    CountIsNatural(b);
    if n > 0 {
      var t := RackTurns(b, n - 1);
      TurnsClose(b, n - 1);
      RackTurnsCount(b, n - 1);
      TurnsEach(b, n - 1, n - 1);
      TurnCloses(t, n - 1);
      SameMovable(b, t, b.sbmu[n - 1]);
      CountIsNatural(t);
      if t.numRacks == 0 {
        NoneClosed(t.sbmu, n - 1);
        AtZero(t);
      }
      AnyOneMore(b, n);
    }
  }

  lemma AtZero(b: Battery)
    requires Counted(b) && b.numRacks == 0
    ensures CountClosed(b.sbmu) == 0
  {
  }

  lemma AnyOneMore(b: Battery, n: nat)
    requires 0 < n <= |b.sbmu|
    ensures AnyMovable(b, n) <==> AnyMovable(b, n - 1) || Movable(b.sbmu[n - 1], b)
  {
    hide Movable;
  }

  lemma SameMovable(b: Battery, t: Battery, r: Rack)
    requires t.contactorClsMaxI == b.contactorClsMaxI
    ensures Movable(r, t) == Movable(r, b)
  {
  }

  lemma CountIsNatural(b: Battery)
    requires Counted(b)
    ensures b.numRacks >= 0
  {
  }

  lemma {:induction false} NoneClosed(racks: seq<Rack>, i: nat)
    requires i < |racks|
    ensures CountClosed(racks) == 0 ==> !racks[i].dcContactor
    decreases |racks|
  {
    if i < |racks| - 1 {
      NoneClosed(racks[..|racks| - 1], i);
    }
  }

  // ---- The switch ------------------------------------------------------------------------------

  lemma SwitchTurnsOn(s: Switches, a: Alarms, before: int, after: int)
    requires Chained(s, before) && before >= 0 && after >= before
    requires !s.on && s.oncmd && !Faulted(a) && !s.dcContactorOpenCmd
    ensures Switched(MainContactor(Asked(s, a), after)).on <==> after > 0
  {
  }

  /** The on command: a battery that is off, is not faulted and is not told to open turns
      on if and only if a rack is closed already or one in service is within the current
      limit. */
  lemma OnCommandTurnsOn(b: Battery, lowerFault: bool, lowerWarning: bool)
    requires Linked(b) && !b.sw.on && b.sw.oncmd && !b.sw.dcContactorOpenCmd
    requires !Faulted(UpdateMode(b, lowerFault, lowerWarning).alarms)
    ensures UpdateMode(b, lowerFault, lowerWarning).sw.on <==> b.numRacks > 0 || AnyMovable(b, |b.sbmu|)
  {
    hide RackTurns, Counted, Asked, MainContactor, Switched, Monitored, Movable, Chained;
    var a := Prepared(b, lowerFault, lowerWarning);
    CountedPrepared(b, lowerFault, lowerWarning);
    RackTurnsCount(a, |a.sbmu|);
    AskedOn(b.sw, a.alarms);
    TurnsClose(a, |a.sbmu|);
    SameAnyMovable(b, a);
    CountIsNatural(b);
    SwitchTurnsOn(b.sw, a.alarms, b.numRacks, RackTurns(a, |a.sbmu|).numRacks);
  }

  lemma AskedOn(s: Switches, a: Alarms)
    requires !s.on && s.oncmd && !Faulted(a)
    ensures Asked(s, a).dcContactorCloseCmd && Asked(s, a).dcContactorOpenCmd == s.dcContactorOpenCmd
  {
  }

  lemma SameAnyMovable(b: Battery, a: Battery)
    requires a.sbmu == b.sbmu && a.contactorClsMaxI == b.contactorClsMaxI
    ensures AnyMovable(a, |a.sbmu|) == AnyMovable(b, |b.sbmu|)
  {
    hide Movable;
    forall i: nat | i < |b.sbmu| ensures Movable(b.sbmu[i], a) == Movable(b.sbmu[i], b) {
      SameMovable(b, a, b.sbmu[i]);
    }
  }

  /** What ends with the update: the switch and the main contactor. */
  lemma SwitchTurnsOff(s: Switches, a: Alarms, before: int, after: int)
    requires Chained(s, before)
    ensures var end := Switched(MainContactor(Asked(s, a), after));
      !end.dcContactorOpenCmd && !end.dcContactorCloseCmd
      && (s.on && (s.offcmd || s.dcContactorOpenCmd) ==> !end.on && !end.dcContactor)
      && (Faulted(a) && s.dcContactor ==> !end.on && !end.dcContactor)
      && (!Faulted(a) && !s.oncmd && !s.offcmd && !s.dcContactorOpenCmd && !s.dcContactorCloseCmd ==>
            end.on == s.on && end.dcContactor == s.dcContactor)
  {
  }

  /** The off command, an open command and a fault each turn a running battery off and open
      its main contactor; with no command and no fault neither moves. */
  lemma OffCommandTurnsOff(b: Battery, lowerFault: bool, lowerWarning: bool)
    requires Linked(b)
    ensures var m := UpdateMode(b, lowerFault, lowerWarning);
      (b.sw.on && (b.sw.offcmd || b.sw.dcContactorOpenCmd || Faulted(m.alarms)) ==> !m.sw.on && !m.sw.dcContactor)
      && (Faulted(m.alarms) && b.sw.dcContactor ==> !m.sw.dcContactor)
      && (!Faulted(m.alarms) && !b.sw.oncmd && !b.sw.offcmd && !b.sw.dcContactorOpenCmd && !b.sw.dcContactorCloseCmd ==>
            m.sw.on == b.sw.on && m.sw.dcContactor == b.sw.dcContactor)
  {
    hide RackTurns, Counted, Asked, MainContactor, Switched, Monitored;
    var a := Prepared(b, lowerFault, lowerWarning);
    CountedPrepared(b, lowerFault, lowerWarning);
    RackTurnsCount(a, |a.sbmu|);
    SwitchTurnsOff(b.sw, a.alarms, b.numRacks, RackTurns(a, |a.sbmu|).numRacks);
  }

  /** A fault opens a closed main contactor but does not hold an open one: it closes on a
      close command as soon as a rack is closed, although the battery stays off. */
  lemma FaultDoesNotHoldOpen(b: Battery, lowerFault: bool, lowerWarning: bool)
    requires Linked(b) && Faulted(UpdateMode(b, lowerFault, lowerWarning).alarms)
    ensures var m := UpdateMode(b, lowerFault, lowerWarning);
      !m.sw.on && (m.sw.dcContactor <==> !b.sw.dcContactor && b.sw.dcContactorCloseCmd && m.numRacks > 0)
  {
    hide RackTurns, Counted, Asked, MainContactor, Switched, Monitored;
    var a := Prepared(b, lowerFault, lowerWarning);
    CountedPrepared(b, lowerFault, lowerWarning);
    RackTurnsCount(a, |a.sbmu|);
    FaultedSwitch(b.sw, a.alarms, b.numRacks, RackTurns(a, |a.sbmu|).numRacks);
  }

  lemma FaultedSwitch(s: Switches, a: Alarms, before: int, after: int)
    requires Chained(s, before) && Faulted(a)
    ensures var end := Switched(MainContactor(Asked(s, a), after));
      !end.on && (end.dcContactor <==> !s.dcContactor && s.dcContactorCloseCmd && after > 0)
  {
  }
}
