/** The assets of an AC tree as objects whose phase methods update them in place, and the
    solver's recursion over a tree of such objects. */
module PsmPlant {
  import opened PsmDroop
  import opened PsmAssets
  import opened PsmSolver

  class FeedUnit {
    var closed: bool
    var tripped: bool
    var closecmd: bool
    var opencmd: bool
    var resetcmd: bool
    var tripcmd: bool
    var v1: real
    var v2: real
    var f1: real
    var f2: real
    var ph: real
    var p: real
    var q: real
    var s: real
    var pmax: real
    var qmax: real
    var smax: real
    var polrev: bool
    var dactive: Droop
    var dreactive: Droop

    ghost function State(): Feed
      reads this
    {
      Feed(closed, tripped, closecmd, opencmd, resetcmd, tripcmd, v1, v2, f1, f2, ph, p, q, s,
        pmax, qmax, smax, polrev, dactive, dreactive)
    }

    constructor (init: Feed)
      ensures State() == init
    {
      closed, tripped, closecmd, opencmd := init.closed, init.tripped, init.closecmd, init.opencmd;
      resetcmd, tripcmd, v1, v2 := init.resetcmd, init.tripcmd, init.v1, init.v2;
      f1, f2, ph, p := init.f1, init.f2, init.ph, init.p;
      q, s, pmax, qmax := init.q, init.s, init.pmax, init.qmax;
      smax, polrev, dactive, dreactive := init.smax, init.polrev, init.dactive, init.dreactive;
    }

    method ProcessCommands()
      modifies this
      ensures State() == FeedCommands(old(State()))
    {
      if resetcmd && tripped {
        tripped := false;
        resetcmd := false;
      }
      if tripcmd {
        tripped := true;
        closed := false;
        tripcmd := false;
      } else if opencmd && closed {
        closed := false;
        opencmd := false;
      } else if closecmd && !closed && !tripped {
        closed := true;
        closecmd := false;
      }
    }

    method UpdateMode(input: Terminal) returns (output: Terminal)
      modifies this
      ensures (State(), output) == FeedUpdateMode(old(State()), input)
    {
      hide FeedCommands;
      ProcessCommands();
      if closed {
        v1, v2 := input.v, input.v;
        f1, f2, ph := input.f, input.f, input.ph;
      } else {
        v1, v2 := input.v, 0.0;
        f1, f2 := input.f, 0.0;
      }
      output := VoltTerminal(v2, f2, ph);
    }

    method GetLoadLines(input: Terminal) returns (output: Terminal)
      modifies this
      ensures (State(), output) == FeedGetLoadLines(old(State()), input)
    {
      if closed {
        return input;
      }
      v2, f2, ph := input.v, input.f, input.ph;
      dactive, dreactive := input.dHertz, input.dVolts;
      return ZERO;
    }

    method DistributeVoltage(input: Terminal) returns (output: Terminal)
      modifies this
      ensures (State(), output) == FeedDistributeVoltage(old(State()), input)
    {
      if closed {
        v1, v2 := input.v, input.v;
        f1, f2, ph := input.f, input.f, input.ph;
      } else {
        v1 := input.v;
        f1 := input.f;
      }
      output := VoltTerminal(v2, f2, ph);
    }

    method CalculateState(input: Terminal) returns (output: Terminal)
      modifies this
      ensures (State(), output) == FeedCalculateState(old(State()), input)
    {
      p, q, s := input.p, input.q, input.s;
      if polrev {
        p, q := -p, -q;
        output := PowerTerminal(-p, -q, s);
      } else {
        output := PowerTerminal(p, q, s);
      }
      if !closed {
        output := ZERO;
      }
    }

    method DistributeLoad(input: Terminal) returns (output: Terminal)
      ensures (State(), output) == FeedDistributeLoad(State(), input)
    {
      if closed {
        return input;
      }
      var load, reactive := p, q;
      if polrev {
        load, reactive := -p, -q;
      }
      output := PowerTerminal(load, reactive, s);
      output := output.(f := GetX(-load, dactive.slope, dactive.offset));
      output := output.(v := GetX(-reactive, dreactive.slope, dreactive.offset));
    }

    method CheckLimits(input: Terminal)
      modifies this`tripcmd
      ensures tripcmd == (old(tripcmd) || (closed && Overloaded(old(State()), input)))
    {
      hide Abs;
      if closed {
        if Abs(input.p) > pmax || Abs(input.q) > qmax || input.s > smax {
          tripcmd := true;
        }
      }
    }

    method RecordFlow(input: Terminal)
      modifies this`p, this`q, this`s
      ensures p == (if closed then if polrev then -input.p else input.p else 0.0)
      ensures q == (if closed then if polrev then -input.q else input.q else 0.0)
      ensures s == (if closed then input.s else 0.0)
    {
      if closed {
        p, q, s := input.p, input.q, input.s;
      } else {
        p, q, s := 0.0, 0.0, 0.0;
      }
      if polrev {
        p, q := -p, -q;
      }
    }

    method UpdateState(input: Terminal) returns (output: Terminal)
      modifies this
      ensures (State(), output) == FeedUpdateState(old(State()), input)
    {
      hide Overloaded;
      CheckLimits(input);
      RecordFlow(input);
      if polrev {
        output := PowerTerminal(-p, -q, s);
      } else {
        output := PowerTerminal(p, q, s);
      }
      if !closed {
        output := ZERO;
      }
    }
  }

  class GridUnit {
    var p: real
    var q: real
    var s: real
    var v: real
    var f: real
    var ph: real
    var vcmd: real
    var fcmd: real
    var dactive: Droop
    var dreactive: Droop
    var dactiveExternal: Droop
    var dreactiveExternal: Droop

    ghost function State(): Grid
      reads this
    {
      Grid(p, q, s, v, f, ph, vcmd, fcmd, dactive, dreactive, dactiveExternal, dreactiveExternal)
    }

    constructor (init: Grid)
      ensures State() == init
    {
      p, q, s, v := init.p, init.q, init.s, init.v;
      f, ph, vcmd, fcmd := init.f, init.ph, init.vcmd, init.fcmd;
      dactive, dreactive, dactiveExternal, dreactiveExternal := init.dactive, init.dreactive, init.dactiveExternal, init.dreactiveExternal;
    }

    method UpdateMode(input: Terminal) returns (output: Terminal)
      ensures (State(), output) == GridUpdateMode(State(), input)
    {
      output := VoltTerminal(v, f, ph);
    }

    method GetLoadLines(input: Terminal) returns (output: Terminal)
      modifies this
      ensures (State(), output) == GridGetLoadLines(old(State()), input)
    {
      var own := PowerTerminal(p, q, 0.0);
      own := own.(dHertz := dactive.(xNom := fcmd), dVolts := dreactive.(xNom := vcmd));
      own := own.(dHertz := own.dHertz.(slope := Slope(dactive.percent, dactive.yNom, fcmd), offset := Offset(dactive.percent, dactive.yNom, fcmd)));
      own := own.(dVolts := own.dVolts.(slope := Slope(dreactive.percent, dreactive.yNom, vcmd), offset := Offset(dreactive.percent, dreactive.yNom, vcmd)));
      output := Combine(own, input);
      dactiveExternal := output.dHertz;
      dreactiveExternal := output.dVolts;
      v, f := output.v, output.f;
    }

    method DistributeVoltage(input: Terminal) returns (output: Terminal)
      ensures (State(), output) == GridDistributeVoltage(State(), input)
    {
      output := VoltTerminal(v, f, ph);
    }

    method CalculateState(input: Terminal) returns (output: Terminal)
      modifies this
      ensures (State(), output) == GridCalculateState(old(State()), input)
    {
      p, q, s := input.p, input.q, input.s;
      output := PowerTerminal(p, q, s);
    }

    method DistributeLoad(input: Terminal) returns (output: Terminal)
      ensures (State(), output) == GridDistributeLoad(State(), input)
    {
      output := PowerTerminal(p, q, s);
      output := output.(f := GetX(-p, dactiveExternal.slope, dactiveExternal.offset));
      output := output.(v := GetX(-q, dreactiveExternal.slope, dreactiveExternal.offset));
    }

    method UpdateState(input: Terminal) returns (output: Terminal)
      modifies this
      ensures (State(), output) == GridUpdateState(old(State()), input)
    {
      p, q, s := input.p, input.q, input.s;
      output := Terminal(v, 0.0, p, q, s, f, ph, dactive, dreactive, NO_DROOP);
    }
  }

  class GenUnit {
    var id: string
    var on: bool
    var oncmd: bool
    var offcmd: bool
    var gridForming: bool
    var gridFormingCmd: bool
    var gridFollowingCmd: bool
    var v: real
    var f: real
    var ph: real
    var p: real
    var q: real
    var s: real
    var pcmd: real
    var qcmd: real
    var pramp: real
    var qramp: real
    var pfMode: bool
    var pfCmd: real
    var noise: real
    var vcmd: real
    var fcmd: real
    var dactive: Droop
    var dreactive: Droop

    ghost function State(): Gen
      reads this
    {
      Gen(id, on, oncmd, offcmd, gridForming, gridFormingCmd, gridFollowingCmd, v, f, ph, p, q, s,
        pcmd, qcmd, pramp, qramp, pfMode, pfCmd, noise, vcmd, fcmd, dactive, dreactive)
    }

    constructor (init: Gen)
      ensures State() == init
    {
      id, on, oncmd, offcmd := init.id, init.on, init.oncmd, init.offcmd;
      gridForming, gridFormingCmd, gridFollowingCmd, v := init.gridForming, init.gridFormingCmd, init.gridFollowingCmd, init.v;
      f, ph, p, q := init.f, init.ph, init.p, init.q;
      s, pcmd, qcmd, pramp := init.s, init.pcmd, init.qcmd, init.pramp;
      qramp, pfMode, pfCmd, noise := init.qramp, init.pfMode, init.pfCmd, init.noise;
      vcmd, fcmd, dactive, dreactive := init.vcmd, init.fcmd, init.dactive, init.dreactive;
    }

    method UpdateFormingMode()
      modifies this
      ensures State() == GenFormingMode(old(State()))
    {
      if gridFormingCmd {
        gridForming, gridFormingCmd := true, false;
      } else if gridFollowingCmd && gridForming {
        gridForming, gridFollowingCmd := false, false;
      }
    }

    method UpdateMode(input: Terminal) returns (output: Terminal)
      modifies this
      ensures (State(), output) == GenUpdateMode(old(State()), input)
    {
      hide GenFormingMode;
      UpdateFormingMode();
      if !on && oncmd {
        on := true;
        oncmd := false;
      } else if on && offcmd {
        on := false;
        offcmd := false;
      }
      output := ZERO;
    }

    method GetLoadLines(input: Terminal) returns (output: Terminal)
      ensures (State(), output) == GenGetLoadLines(State(), input)
    {
      output := ZERO;
      if gridForming && on {
        output := output.(dHertz := dactive.(xNom := fcmd));
        output := output.(dVolts := dreactive.(xNom := vcmd));
        output := output.(p := p, q := q);
      }
    }

    method DistributeVoltage(input: Terminal) returns (output: Terminal)
      modifies this
      ensures (State(), output) == GenDistributeVoltage(old(State()), input)
    {
      if input.v <= 0.0 {
        on, oncmd, offcmd := false, false, false;
      }
      v, f, ph := input.v, input.f, input.ph;
      output := ZERO;
    }

    method CalculateState(input: Terminal, env: Env) returns (output: Terminal)
      modifies this
      ensures (State(), output) == GenCalculateState(old(State()), input, env)
    {
      output := ZERO;
      if gridForming {
        return;
      }
      var pset, qset := pcmd, qcmd;
      if pfMode {
        qset := env.pfToQ(pset, pfCmd);
      }
      pset := pset + PowerNoise(env.draw(id, 0), noise);
      qset := qset + PowerNoise(env.draw(id, 1), noise);
      if on {
        output := output.(p := GetSlew(p, pset, pramp, env.dt / 60.0));
        output := output.(q := GetSlew(q, qset, qramp, env.dt / 60.0));
      }
      p, q := output.p, output.q;
    }

    method UpdateState(input: Terminal, env: Env) returns (output: Terminal)
      modifies this
      ensures (State(), output) == GenUpdateState(old(State()), input, env)
    {
      var power, reactive := 0.0, 0.0;
      if !gridForming {
        power, reactive := p, q;
      } else if on {
        power := GetY(input.f, dactive.slope, dactive.offset);
        reactive := GetY(input.v, dreactive.slope, dreactive.offset);
      }
      p, q := power, reactive;
      s := env.rss(p, q);
      output := PowerTerminal(p, q, s);
    }
  }

  class LoadUnit {
    var id: string
    var on: bool
    var oncmd: bool
    var offcmd: bool
    var v: real
    var f: real
    var ph: real
    var p: real
    var q: real
    var s: real
    var pcmd: real
    var qcmd: real
    var pramp: real
    var qramp: real
    var noise: real
    var randomWalk: bool
    var pmin: real
    var pmax: real
    var qmin: real
    var qmax: real

    ghost function State(): Load
      reads this
    {
      Load(id, on, oncmd, offcmd, v, f, ph, p, q, s, pcmd, qcmd, pramp, qramp, noise, randomWalk,
        pmin, pmax, qmin, qmax)
    }

    constructor (init: Load)
      ensures State() == init
    {
      id, on, oncmd, offcmd := init.id, init.on, init.oncmd, init.offcmd;
      v, f, ph, p := init.v, init.f, init.ph, init.p;
      q, s, pcmd, qcmd := init.q, init.s, init.pcmd, init.qcmd;
      pramp, qramp, noise, randomWalk := init.pramp, init.qramp, init.noise, init.randomWalk;
      pmin, pmax, qmin, qmax := init.pmin, init.pmax, init.qmin, init.qmax;
    }

    method UpdateMode(input: Terminal) returns (output: Terminal)
      modifies this
      ensures (State(), output) == LoadUpdateMode(old(State()), input)
    {
      if !on && oncmd {
        on := true;
        oncmd := false;
      } else if on && offcmd {
        on := false;
        offcmd := false;
      }
      output := ZERO;
    }

    method GetLoadLines(input: Terminal) returns (output: Terminal)
      ensures (State(), output) == LoadGetLoadLines(State(), input)
    {
      output := ZERO.(p := p);
    }

    method DistributeVoltage(input: Terminal) returns (output: Terminal)
      modifies this
      ensures (State(), output) == LoadDistributeVoltage(old(State()), input)
    {
      if input.v == 0.0 {
        on, oncmd, offcmd := false, false, false;
      }
      v := input.v;
      f, ph := input.f, input.ph;
      output := ZERO;
    }

    method CalculateState(input: Terminal, env: Env) returns (output: Terminal)
      modifies this
      ensures (State(), output) == LoadCalculateState(old(State()), input, env)
    {
      output := ZERO;
      if on {
        var pset, qset := pcmd, qcmd;
        if randomWalk {
          pset := LoadNoise(env, id, 2, pmin, pmax);
          qset := LoadNoise(env, id, 3, qmin, qmax);
        }
        pset := pset + PowerNoise(env.draw(id, 0), noise);
        qset := qset + PowerNoise(env.draw(id, 1), noise);
        output := output.(p := GetSlew(p, pset, pramp, env.dt / 60.0));
        output := output.(q := GetSlew(q, qset, qramp, env.dt / 60.0));
      }
      p, q := output.p, output.q;
    }

    method UpdateState(input: Terminal, env: Env) returns (output: Terminal)
      modifies this
      ensures (State(), output) == LoadUpdateState(old(State()), input, env)
    {
      s := env.rss(p, q);
      output := PowerTerminal(p, q, s);
    }
  }

  class SolarUnit {
    var id: string
    var on: bool
    var oncmd: bool
    var offcmd: bool
    var v: real
    var f: real
    var ph: real
    var p: real
    var q: real
    var s: real
    var pcmd: real
    var plim: real
    var phigh: real
    var qcmd: real
    var pramp: real
    var qramp: real
    var percentCmd: bool
    var pfMode: bool
    var pfCmd: real
    var noise: real

    ghost function State(): Solar
      reads this
    {
      Solar(id, on, oncmd, offcmd, v, f, ph, p, q, s, pcmd, plim, phigh, qcmd, pramp, qramp,
        percentCmd, pfMode, pfCmd, noise)
    }

    constructor (init: Solar)
      ensures State() == init
    {
      id, on, oncmd, offcmd := init.id, init.on, init.oncmd, init.offcmd;
      v, f, ph, p := init.v, init.f, init.ph, init.p;
      q, s, pcmd, plim := init.q, init.s, init.pcmd, init.plim;
      phigh, qcmd, pramp, qramp := init.phigh, init.qcmd, init.pramp, init.qramp;
      percentCmd, pfMode, pfCmd, noise := init.percentCmd, init.pfMode, init.pfCmd, init.noise;
    }

    method UpdateMode(input: Terminal) returns (output: Terminal)
      modifies this
      ensures (State(), output) == SolarUpdateMode(old(State()), input)
    {
      if !on && oncmd {
        on := true;
        oncmd := false;
      } else if on && offcmd {
        on := false;
        offcmd := false;
      }
      output := ZERO;
    }

    method DistributeVoltage(input: Terminal) returns (output: Terminal)
      modifies this
      ensures (State(), output) == SolarDistributeVoltage(old(State()), input)
    {
      if input.v <= 0.0 {
        on, oncmd, offcmd := false, false, false;
      }
      v, f, ph := input.v, input.f, input.ph;
      output := ZERO;
    }

    method CalculateState(input: Terminal, env: Env) returns (output: Terminal)
      modifies this
      ensures (State(), output) == SolarCalculateState(old(State()), input, env)
    {
      hide PowerNoise, GetSlew, Min, Max, OfRated;
      f, ph := input.f, input.ph;
      var limit, qset := plim, qcmd;
      if percentCmd {
        limit := OfRated(limit, phigh);
        qset := OfRated(qset, phigh);
      }
      if pfMode {
        qset := env.pfToQ(limit, pfCmd);
      }
      limit := Min(limit, phigh);
      limit := limit + PowerNoise(env.draw(id, 0), noise);
      qset := qset + PowerNoise(env.draw(id, 1), noise);
      var pset := pcmd + PowerNoise(env.draw(id, 2), noise);
      pset := Max(pset, 0.0);
      pset := Min(limit, pset);
      output := ZERO;
      if on {
        output := output.(p := GetSlew(p, pset, pramp, env.dt / 60.0));
        output := output.(q := GetSlew(q, qset, qramp, env.dt / 60.0));
      }
      p, q := output.p, output.q;
    }

    method UpdateState(input: Terminal, env: Env) returns (output: Terminal)
      modifies this
      ensures (State(), output) == SolarUpdateState(old(State()), input, env)
    {
      s := env.rss(p, q);
      output := PowerTerminal(p, q, s);
    }
  }
}
