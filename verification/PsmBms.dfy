/** The battery management system as an object whose racks and counters are updated in
    place. */
module PsmBms {
  import opened PsmDroop
  import opened PsmBattery
  import opened PsmEnergy

  class Bms {
    var sbmu: seq<Rack>
    var vdc: real
    var p: real
    var pdc: real
    var soc: real
    var on: bool
    var oncmd: bool
    var offcmd: bool
    var dcContactor: bool
    var dcContactorOpenCmd: bool
    var dcContactorCloseCmd: bool
    var numRacks: int
    var numRacksEnabled: int
    var contactorClsDeltaV: real
    var contactorClsMaxI: real
    var fault: bool
    var warning: bool
    var reset: bool
    var disableFault: bool
    var faultskip: bool

    ghost function Switching(): Switches
      reads this
    {
      Switches(on, oncmd, offcmd, dcContactor, dcContactorOpenCmd, dcContactorCloseCmd)
    }

    ghost function Alarming(): Alarms
      reads this
    {
      Alarms(fault, warning, reset, disableFault, faultskip)
    }

    ghost function State(): Battery
      reads this
    {
      Battery(sbmu, vdc, p, pdc, soc, numRacks, numRacksEnabled, contactorClsDeltaV, contactorClsMaxI, Switching(), Alarming())
    }

    /** The part of Init that concerns racks and contactors. */
    method Initialize()
      modifies this
      ensures State() == Init(old(State()))
      ensures !old(on) ==> Linked(State())
    {
      hide Init, Linked;
      ResetAll();
      if !old(on) {
        InitLinked(old(State()));
      }
    }

    method ResetAll()
      modifies this`dcContactor, this`numRacks, this`numRacksEnabled, this`sbmu, this`faultskip
      ensures State() == Init(old(State()))
    {
      hide InitRacks;
      dcContactor := false;
      numRacks := 0;
      numRacksEnabled := |sbmu|;
      faultskip := true;
      assert Switching() == old(Switching()).(dcContactor := false);
      assert Alarming() == old(Alarming()).(faultskip := true);
      ResetRacks();
    }

    method ResetRacks()
      modifies this`sbmu
      ensures sbmu == InitRacks(old(sbmu))
    {
      var i := 0;
      while i < |sbmu|
        invariant 0 <= i <= |sbmu| == |old(sbmu)|
        invariant forall j | 0 <= j < i :: sbmu[j] == InitRack(old(sbmu)[j])
        invariant forall j | i <= j < |sbmu| :: sbmu[j] == old(sbmu)[j]
      {
        sbmu := sbmu[i := InitRack(sbmu[i])];
        i := i + 1;
      }
    }

    method Monitor(lowerFault: bool, lowerWarning: bool)
      modifies this`fault, this`warning, this`reset, this`faultskip
      ensures Alarming() == Monitored(old(Alarming()), lowerFault, lowerWarning)
    {
      if !disableFault && !faultskip {
        if reset {
          fault, warning := false, false;
        }
        fault := fault || lowerFault;
        warning := warning || lowerWarning;
        if reset {
          reset := false;
        }
      } else {
        fault, warning, reset := false, false, false;
      }
      faultskip := false;
    }

    method AskContactors()
      modifies this`oncmd, this`dcContactorOpenCmd, this`dcContactorCloseCmd
      ensures Switching() == Asked(old(Switching()), Alarming())
    {
      if fault && !disableFault {
        oncmd := false;
        if dcContactor {
          dcContactorOpenCmd := true;
        }
      } else {
        if !on && oncmd {
          dcContactorCloseCmd := true;
        } else if on && offcmd {
          dcContactorOpenCmd := true;
        }
      }
    }

    method UpdateRack(i: nat)
      requires i < |sbmu|
      modifies this`sbmu, this`numRacks, this`numRacksEnabled
      ensures State() == RackTurn(old(State()), i) && |sbmu| == |old(sbmu)|
    {
      hide RackEnabling, RackContactor, Ones;
      EnableRack(i);
      ghost var e := sbmu[i];
      SameContactor(e, old(State()), State());
      MoveRackContactor(i);
      assert old(sbmu)[i := e][i := sbmu[i]] == old(sbmu)[i := sbmu[i]];
      EnablingKeepsContactor(old(sbmu)[i]);
    }

    /** Enables or disables a rack and counts it. */
    method EnableRack(i: nat)
      requires i < |sbmu|
      modifies this`sbmu, this`numRacksEnabled
      ensures sbmu == old(sbmu)[i := RackEnabling(old(sbmu)[i])]
      ensures numRacksEnabled == old(numRacksEnabled) + Ones(sbmu[i].enabled) - Ones(old(sbmu)[i].enabled)
    {
      var r := sbmu[i];
      if !r.enabled && r.enableCmd {
        sbmu := sbmu[i := r.(enabled := true, enableCmd := false)];
        numRacksEnabled := numRacksEnabled + 1;
      } else if r.enabled && r.disableCmd {
        sbmu := sbmu[i := r.(enabled := false, disableCmd := false)];
        numRacksEnabled := numRacksEnabled - 1;
      }
    }

    /** Opens or closes the contactor of a rack and counts it. */
    method MoveRackContactor(i: nat)
      requires i < |sbmu|
      modifies this`sbmu, this`numRacks
      ensures sbmu == old(sbmu)[i := RackContactor(old(sbmu)[i], old(State()))]
      ensures numRacks == old(numRacks) + Ones(sbmu[i].dcContactor) - Ones(old(sbmu)[i].dcContactor)
    {
      hide Abs;
      var r := sbmu[i];
      if r.enabled && Abs(r.idc) <= contactorClsMaxI {
        if !r.dcContactor && dcContactorCloseCmd && (numRacks == 0 || r.vdc - vdc < contactorClsDeltaV) {
          sbmu := sbmu[i := r.(dcContactor := true, dcContactorCloseCmd := false)];
          numRacks := numRacks + 1;
        } else if r.dcContactor && dcContactorOpenCmd {
          sbmu := sbmu[i := r.(dcContactor := false, dcContactorOpenCmd := false)];
          numRacks := numRacks - 1;
        }
      }
    }

    method SwitchMain()
      modifies this`on, this`oncmd, this`offcmd, this`dcContactor, this`dcContactorOpenCmd, this`dcContactorCloseCmd
      ensures Switching() == Switched(MainContactor(old(Switching()), numRacks))
    {
      if !dcContactor && dcContactorCloseCmd {
        if numRacks > 0 {
          dcContactor, dcContactorCloseCmd := true, false;
        } else {
          dcContactor, dcContactorCloseCmd := false, false;
        }
      } else if dcContactor && dcContactorOpenCmd {
        dcContactor, dcContactorOpenCmd := false, false;
        offcmd := true;
      }
      if oncmd && !on && dcContactor {
        on := true;
        oncmd := false;
      } else if on && offcmd {
        on := false;
        offcmd := false;
      }
      dcContactorCloseCmd := false;
      dcContactorOpenCmd := false;
    }

    /** UpdateMode, with the verdicts of the measurement monitors as inputs. */
    method UpdateMode(lowerFault: bool, lowerWarning: bool)
      modifies this
      ensures State() == PsmBattery.UpdateMode(old(State()), lowerFault, lowerWarning)
      ensures Linked(old(State())) ==> Linked(State()) && (Faulted(Alarming()) ==> !on)
    {
      hide Monitored, Asked, RackTurn, RackTurns, MainContactor, Switched, Linked, Faulted;
      Prepare(lowerFault, lowerWarning);
      UpdateRacks();
      SwitchMain();
      if Linked(old(State())) {
        UpdateModeKeepsLinked(old(State()), lowerFault, lowerWarning);
      }
    }

    method Prepare(lowerFault: bool, lowerWarning: bool)
      modifies this
      ensures State() == Prepared(old(State()), lowerFault, lowerWarning)
    {
      hide Monitored, Asked;
      Monitor(lowerFault, lowerWarning);
      AskContactors();
    }

    method UpdateRacks()
      modifies this
      ensures State() == RackTurns(old(State()), |old(sbmu)|)
    {
      hide RackTurn;
      ghost var a := State();
      var i := 0;
      while i < |sbmu|
        invariant 0 <= i <= |sbmu| == |a.sbmu|
        invariant State() == RackTurns(a, i)
      {
        UpdateRack(i);
        i := i + 1;
      }
    }

    /** The part of UpdateState that moves energy. The power asked for is the input. */
    method UpdateState(power: real, dt: real)
      requires Linked(State()) && Sound(sbmu) && dt > 0.0
      modifies this
      ensures State() == PsmEnergy.UpdateState(old(State()), power, dt)
    {
      hide Sum, Linked, Sound, PoweredAll, Rested, Share, MeanSoc;
      if on && dcContactor {
        PoweredUpdate(State(), power, dt);
        var share := Share(power, sbmu);
        var socsum := DriveRacks(share, dt);
        soc := MeanSoc(socsum, numRacks);
      } else {
        p, pdc := 0.0, 0.0;
        RestRacks();
      }
    }

    method DriveRacks(share: real, dt: real) returns (socsum: real)
      requires Sound(sbmu) && dt > 0.0
      modifies this`sbmu, this`p, this`pdc
      ensures sbmu == PoweredAll(old(sbmu), share, dt)
      ensures p == Sum(Delivered, sbmu) && pdc == Sum(Drawn, sbmu) && socsum == Sum(ClosedSoc, sbmu) / 100.0
    {
      hide Powered, Loss;
      p, pdc, socsum := 0.0, 0.0, 0.0;
      var i := 0;
      while i < |sbmu|
        invariant 0 <= i <= |sbmu| == |old(sbmu)|
        invariant Sound(old(sbmu))
        invariant sbmu[..i] == PoweredAll(old(sbmu), share, dt)[..i]
        invariant sbmu[i..] == old(sbmu)[i..]
        invariant p == Sum(Delivered, sbmu[..i]) && pdc == Sum(Drawn, sbmu[..i]) && socsum == Sum(ClosedSoc, sbmu[..i]) / 100.0
      {
        assert sbmu[i] == old(sbmu)[i];
        var r, charged := DriveRack(sbmu[i], share, dt);
        sbmu := sbmu[i := r];
        assert sbmu[..i + 1][..i] == sbmu[..i];
        p := p + sbmu[i].p;
        pdc := pdc + sbmu[i].pdc;
        socsum := socsum + charged;
        i := i + 1;
      }
      assert sbmu[..i] == sbmu;
    }

    /** One rack; the second result is its new charge as a fraction if it is closed. */
    method DriveRack(rack: Rack, share: real, dt: real) returns (r: Rack, charged: real)
      requires SoundRack(rack) && dt > 0.0
      ensures r == Powered(rack, share, dt)
      ensures charged == Of(ClosedSoc, r) / 100.0
    {
      hide GetIntegral, Loss, DrawnAt, StoredEnergy;
      if !rack.dcContactor {
        return rack.(p := 0.0, pdc := 0.0), 0.0;
      }
      var socloss := Loss(rack, share);
      var drawn := share + socloss;
      var step := GetIntegral(rack.soc / 100.0, -drawn / rack.cap, dt / 3600.0, 0.0, 1.0);
      r := rack.(soc := step.accumulated * 100.0, pdc := drawn, p := share);
      if step.over {
        r := r.(pdc := DrawnAt(step.rate, rack.cap));
        r := r.(p := r.pdc - socloss);
      } else if step.under {
        r := r.(pdc := DrawnAt(step.rate, rack.cap));
        r := r.(p := r.pdc - socloss);
      }
      charged := step.accumulated;
    }

    method RestRacks()
      modifies this`sbmu
      ensures sbmu == Rested(old(sbmu))
    {
      var i := 0;
      while i < |sbmu|
        invariant 0 <= i <= |sbmu| == |old(sbmu)|
        invariant forall j | 0 <= j < i :: sbmu[j] == old(sbmu)[j].(p := 0.0, pdc := 0.0)
        invariant forall j | i <= j < |sbmu| :: sbmu[j] == old(sbmu)[j]
      {
        sbmu := sbmu[i := sbmu[i].(p := 0.0, pdc := 0.0)];
        i := i + 1;
      }
    }
  }

  lemma SameContactor(r: Rack, b: Battery, c: Battery)
    requires b.numRacks == c.numRacks && b.vdc == c.vdc && b.sw == c.sw
    requires b.contactorClsDeltaV == c.contactorClsDeltaV && b.contactorClsMaxI == c.contactorClsMaxI
    ensures RackContactor(r, b) == RackContactor(r, c)
  {
  }
}
