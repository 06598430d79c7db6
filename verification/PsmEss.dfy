/** The energy storage system as an object whose modes, targets, power and charge are
    updated in place. */
module PsmEss {
  import opened PsmDroop
  import opened PsmStorage

  /** All racks come into service with the DC contactor and leave it with it. */
  function RacksServed(was: bool, now: bool, racks: int, served: int): int {
    if was == now then served else if now then racks else 0
  }

  class EssUnit {
    var cfg: Config
    var on: bool
    var standby: bool
    var acContactor: bool
    var dcContactor: bool
    var gridForming: bool
    var cmd: Commands
    var onTransition: bool
    var offTransition: bool
    var pStartActive: bool
    var pStopActive: bool
    var qStartActive: bool
    var qStopActive: bool
    var targetPcmd: real
    var targetQcmd: real
    var p: real
    var q: real
    var soc: real
    var pcharge: real
    var pdischarge: real
    var v: real
    var f: real
    var ph: real
    const racks: int
    var racksInService: int

    ghost function Switching(): Switches
      reads this
    {
      Switches(on, standby, acContactor, dcContactor, gridForming)
    }

    ghost function Ramping(): Flags
      reads this
    {
      Flags(pStartActive, pStopActive, qStartActive, qStopActive)
    }

    ghost function Transiting(): Move
      reads this
    {
      Move(Switching(), cmd, onTransition, offTransition)
    }

    ghost function State(): Ess
      reads this
    {
      Ess(Switching(), cmd, Ramping(), targetPcmd, targetQcmd, p, q, soc, pcharge, pdischarge)
    }

    /** The part of Init that concerns ramps. */
    method Initialize()
      modifies this`pStartActive, this`pStopActive
      ensures State() == PsmStorage.Init(old(State()))
    {
      pStartActive, pStopActive := false, false;
    }

    method SpreadCommands()
      modifies this`cmd
      ensures cmd == Spread(Switching(), old(cmd))
    {
      if !cmd.contactorControl {
        if !on && cmd.oncmd {
          cmd := cmd.(acClose := true, dcClose := true);
        } else if on && cmd.offcmd {
          cmd := cmd.(acOpen := true, dcOpen := true);
        }
      }
    }

    method MoveAcContactor()
      modifies this`acContactor, this`cmd
      ensures (Switching(), cmd) == MoveAc(old(Switching()), old(cmd))
    {
      if !acContactor && cmd.acClose {
        acContactor, cmd := true, cmd.(acClose := false);
      } else if acContactor && cmd.acOpen {
        acContactor, cmd := false, cmd.(acOpen := false, offcmd := true);
      }
    }

    method MoveDcContactor()
      modifies this`dcContactor, this`cmd, this`racksInService
      ensures (Switching(), cmd) == MoveDc(old(Switching()), old(cmd))
      ensures racksInService == RacksServed(old(dcContactor), dcContactor, racks, old(racksInService))
    {
      if !dcContactor && cmd.dcClose {
        dcContactor, cmd := true, cmd.(dcClose := false);
        racksInService := racks;
      } else if dcContactor && cmd.dcOpen {
        dcContactor, cmd := false, cmd.(dcOpen := false, offcmd := true);
        racksInService := 0;
      }
    }

    method ChooseForming()
      modifies this`gridForming, this`cmd
      ensures (Switching(), cmd) == MoveForming(old(Switching()), old(cmd))
    {
      if cmd.formingCmd {
        gridForming, cmd := true, cmd.(formingCmd := false);
      } else if cmd.followingCmd && gridForming {
        gridForming, cmd := false, cmd.(followingCmd := false);
      }
    }

    /** On and off, with the target each of them sets. */
    method SwitchOnOff()
      modifies this`on, this`standby, this`cmd, this`onTransition, this`offTransition, this`targetPcmd, this`targetQcmd
      ensures Transiting() == Transition(old(Switching()), old(cmd), Stopping(Ramping()))
      ensures targetPcmd == Target(Transiting(), cmd.pcmd, old(targetPcmd))
      ensures targetQcmd == Target(Transiting(), cmd.qcmd, old(targetQcmd))
    {
      hide Target;
      onTransition, offTransition := false, false;
      if cmd.oncmd && (!on || standby) && acContactor && dcContactor && !(pStopActive || qStopActive) {
        SwitchOn();
      } else if (on || pStopActive || qStopActive) && cmd.offcmd {
        SwitchOff();
      } else {
        KeepsTargets(Transiting(), cmd.pcmd, targetPcmd);
        KeepsTargets(Transiting(), cmd.qcmd, targetQcmd);
      }
    }

    method SwitchOn()
      modifies this`on, this`standby, this`cmd, this`onTransition, this`targetPcmd, this`targetQcmd
      ensures Transiting() == Move(old(Switching()).(on := true, standby := false), old(cmd).(oncmd := false), true, offTransition)
      ensures targetPcmd == Target(Transiting(), cmd.pcmd, old(targetPcmd))
      ensures targetQcmd == Target(Transiting(), cmd.qcmd, old(targetQcmd))
    {
      on := true;
      cmd := cmd.(oncmd := false);
      standby := false;
      onTransition := true;
      targetPcmd := cmd.pcmd;
      targetQcmd := cmd.qcmd;
    }

    method SwitchOff()
      requires !onTransition
      modifies this`on, this`standby, this`cmd, this`offTransition, this`targetPcmd, this`targetQcmd
      ensures Transiting() == Move(old(Switching()).(on := false, standby := false), old(cmd).(offcmd := false), false, true)
      ensures targetPcmd == Target(Transiting(), cmd.pcmd, old(targetPcmd))
      ensures targetQcmd == Target(Transiting(), cmd.qcmd, old(targetQcmd))
    {
      on := false;
      cmd := cmd.(offcmd := false);
      standby := false;
      offTransition := true;
      targetPcmd := 0.0;
      targetQcmd := 0.0;
    }

    method EnterStandby()
      modifies this`standby, this`cmd
      ensures Transiting() == GoStandby(old(Transiting()))
    {
      if on && cmd.standbyCmd {
        standby := true;
        cmd := cmd.(standbyCmd := false);
      }
    }

    method SetActiveFlags()
      modifies this`pStartActive, this`pStopActive
      ensures pStopActive == StopFlag(old(pStopActive), Transiting(), cfg.pRamps.stopEnable || cfg.rampEnable, p)
      ensures pStartActive == StartFlag(old(pStartActive), Transiting(), cfg.pRamps.startEnable || cfg.rampEnable, cmd.pcmd != targetPcmd)
    {
      if (offTransition || pStopActive) && (cfg.pRamps.stopEnable || cfg.rampEnable) {
        pStopActive := true;
      }
      if (!cfg.pRamps.stopEnable && !cfg.rampEnable) || onTransition || p == 0.0 {
        pStopActive := false;
      }
      if (onTransition || pStartActive) && (cfg.pRamps.startEnable || cfg.rampEnable) {
        pStartActive := true;
      }
      if (cmd.pcmd != targetPcmd && !onTransition) || (!cfg.pRamps.startEnable && !cfg.rampEnable) || offTransition {
        pStartActive := false;
      }
    }

    method SetReactiveFlags()
      modifies this`qStartActive, this`qStopActive
      ensures qStopActive == StopFlag(old(qStopActive), Transiting(), cfg.qRamps.stopEnable || cfg.rampEnable, q)
      ensures qStartActive == StartFlag(old(qStartActive), Transiting(), cfg.qRamps.startEnable || cfg.rampEnable, cmd.qcmd != targetQcmd)
    {
      if (offTransition || qStopActive) && (cfg.qRamps.stopEnable || cfg.rampEnable) {
        qStopActive := true;
      }
      if (onTransition || qStartActive) && (cfg.qRamps.startEnable || cfg.rampEnable) {
        qStartActive := true;
      }
      if (!cfg.qRamps.stopEnable && !cfg.rampEnable) || onTransition || q == 0.0 {
        qStopActive := false;
      }
      if (cmd.qcmd != targetQcmd && !onTransition) || (!cfg.qRamps.startEnable && !cfg.rampEnable) || offTransition {
        qStartActive := false;
      }
    }

    method SetRampFlags()
      modifies this`pStartActive, this`pStopActive, this`qStartActive, this`qStopActive
      ensures Ramping() == NextFlags(old(Ramping()), Transiting(), cfg, p, q, targetPcmd, targetQcmd)
    {
      hide StopFlag, StartFlag;
      if !gridForming {
        SetActiveFlags();
        SetReactiveFlags();
      }
    }

    method TakeCommands()
      modifies this`acContactor, this`dcContactor, this`gridForming, this`cmd, this`on, this`standby, this`onTransition, this`offTransition, this`targetPcmd, this`targetQcmd, this`racksInService
      ensures Transiting() == Moved(old(State()))
      ensures racksInService == RacksServed(old(dcContactor), dcContactor, racks, old(racksInService))
      ensures targetPcmd == Target(Transiting(), cmd.pcmd, old(targetPcmd))
      ensures targetQcmd == Target(Transiting(), cmd.qcmd, old(targetQcmd))
    {
      hide Contactors, Transition, GoStandby;
      MoveContactors();
      SwitchOnOff();
      EnterStandby();
    }

    method MoveContactors()
      modifies this`acContactor, this`dcContactor, this`gridForming, this`cmd, this`racksInService
      ensures (Switching(), cmd) == Contactors(old(Switching()), old(cmd))
      ensures racksInService == RacksServed(old(dcContactor), dcContactor, racks, old(racksInService))
    {
      hide MoveAc, MoveDc, MoveForming, Spread;
      SpreadCommands();
      MoveAcContactor();
      MoveDcContactor();
      ChooseForming();
    }

    method UpdateMode()
      modifies this
      ensures State() == PsmStorage.UpdateMode(old(State()), old(cfg)) && cfg == old(cfg)
      ensures racksInService == RacksServed(old(dcContactor), dcContactor, racks, old(racksInService))
      ensures v == old(v) && f == old(f) && ph == old(ph)
    {
      hide Moved, NextFlags, Target;
      TakeCommands();
      SetRampFlags();
      FollowCommands();
    }

    /** Outside a stop ramp the targets follow the commands. */
    method FollowCommands()
      modifies this`targetPcmd, this`targetQcmd
      ensures targetPcmd == if Stopping(Ramping()) then old(targetPcmd) else cmd.pcmd
      ensures targetQcmd == if Stopping(Ramping()) then old(targetQcmd) else cmd.qcmd
    {
      if !(pStopActive || qStopActive) {
        targetPcmd := cmd.pcmd;
        targetQcmd := cmd.qcmd;
      }
    }

    method DistributeVoltage(input: Terminal)
      modifies this`on, this`standby, this`cmd, this`v, this`f, this`ph
      ensures State() == PsmStorage.DistributeVoltage(old(State()), input.v)
      ensures v == input.v && f == input.f && ph == input.ph
    {
      if input.v <= 0.0 {
        on := false;
        standby := false;
        cmd := cmd.(oncmd := false, offcmd := false, standbyCmd := false);
      }
      v, ph, f := input.v, input.ph, input.f;
    }

    /** The command of one axis after its ramp, as the branches choose it. */
    method Ramp(power: real, target: real, starting: bool, stopping: bool, r: Ramps, high: real, dt: real)
      returns (level: real)
      ensures level == Ramped(power, target, starting, stopping, r, cfg, high, dt)
    {
      hide GetSlew, Rate;
      level := target;
      var rate, active := 0.0, false;
      if starting {
        rate, active := r.start, true;
      } else if stopping {
        rate := r.stop;
      } else if power < target && (r.riseEnable || cfg.rampEnable) {
        rate, active := r.rise, true;
      } else if power > target && (r.dropEnable || cfg.rampEnable) {
        rate, active := r.drop, true;
      }
      rate := Rate(rate, cfg.absRampRate, high);
      if active {
        level := GetSlew(power, target, rate, dt);
      }
      if stopping {
        level := GetSlew(power, 0.0, rate, dt);
      }
    }

    /** The commanded powers after ramps, ratings, limits and noise. */
    method CommandPowers(dt: real, pfToQ: (real, real) -> real, drawP: real, drawQ: real) returns (pset: real, qset: real)
      ensures var pcmd := PowerCommand(State(), cfg, dt);
        pset == pcmd + PowerNoise(drawP, cfg.noise)
        && qset == (if cfg.pfMode then pfToQ(pcmd, cfg.pfCmd) else ReactiveCommand(State(), cfg, dt)) + PowerNoise(drawQ, cfg.noise)
    {
      hide Ramped, Clamp, PowerNoise;
      pset := Ramp(p, targetPcmd, pStartActive, pStopActive, cfg.pRamps, cfg.phigh, dt);
      qset := Ramp(q, targetQcmd, qStartActive, qStopActive, cfg.qRamps, cfg.qhigh, dt);
      pset := Clamp(pset, -cfg.phigh, cfg.phigh);
      qset := Clamp(qset, -cfg.qhigh, cfg.qhigh);
      pset := Clamp(pset, -pcharge, pdischarge);
      if cfg.pfMode {
        qset := pfToQ(pset, cfg.pfCmd);
      }
      pset := pset + PowerNoise(drawP, cfg.noise);
      qset := qset + PowerNoise(drawQ, cfg.noise);
    }

    method CalculateState(dt: real, pfToQ: (real, real) -> real, drawP: real, drawQ: real)
      requires cfg.cap != 0.0 && dt != 0.0
      modifies this`p, this`q, this`pcharge, this`pdischarge
      ensures State() == PsmStorage.CalculateState(old(State()), cfg, dt, pfToQ, drawP, drawQ)
    {
      hide PowerCommand, ReactiveCommand, Charge, Loss, DeliveredAt, PowerNoise;
      if gridForming {
        return;
      }
      var pset, qset := CommandPowers(dt, pfToQ, drawP, drawQ);
      if (on || pStopActive || qStopActive) && !standby {
        var step := Charge(soc, pset, cfg, dt);
        pcharge := cfg.phigh;
        pdischarge := cfg.phigh;
        if step.over {
          p := DeliveredAt(step.rate, cfg.cap, Loss(cfg, pset));
          pcharge := 0.0;
        } else if step.under {
          p := DeliveredAt(step.rate, cfg.cap, Loss(cfg, pset));
          pdischarge := 0.0;
        } else {
          p := pset;
        }
        q := qset;
      } else {
        p, q := 0.0, 0.0;
      }
    }

    method UpdateState(f: real, v: real, dt: real)
      requires cfg.cap != 0.0 && dt != 0.0
      modifies this`p, this`q, this`soc, this`pcharge, this`pdischarge
      ensures State() == PsmStorage.UpdateState(old(State()), cfg, f, v, dt)
    {
      hide Charge, Loss, GetY, DeliveredAt;
      var power, reactive := p, q;
      if gridForming {
        power := GetY(f, cfg.dactive.slope, cfg.dactive.offset);
        reactive := GetY(v, cfg.dreactive.slope, cfg.dreactive.offset);
      }
      if (on || pStopActive || qStopActive) && !standby {
        var step := Charge(soc, power, cfg, dt);
        var socloss := Loss(cfg, power);
        pcharge := cfg.phigh;
        pdischarge := cfg.phigh;
        if step.over {
          power := DeliveredAt(step.rate, cfg.cap, socloss);
          pcharge := 0.0;
        } else if step.under {
          power := DeliveredAt(step.rate, cfg.cap, socloss);
          pdischarge := 0.0;
        }
        soc := step.accumulated * 100.0;
      } else {
        power, reactive := 0.0, 0.0;
      }
      p, q := power, reactive;
    }
  }

  lemma KeepsTargets(m: Move, cmd: real, was: real)
    requires !m.onTransition && !m.offTransition
    ensures Target(m, cmd, was) == was
  {
  }
}
