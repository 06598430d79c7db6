/** The assets of an AC tree as values, with the six phases of a tick as functions: what
    each phase leaves in the asset, and the terminal it passes on. */
module PsmAssets {
  import opened PsmDroop

  /** What a tick takes from outside: the time step, the square-root formulas, and the
      random draws of each asset. */
  datatype Env = Env(dt: real, rss: (real, real) -> real, pfToQ: (real, real) -> real, draw: (string, nat) -> real)

  datatype Feed = Feed(
    closed: bool, tripped: bool, closecmd: bool, opencmd: bool, resetcmd: bool, tripcmd: bool,
    v1: real, v2: real, f1: real, f2: real, ph: real, p: real, q: real, s: real,
    pmax: real, qmax: real, smax: real, polrev: bool, dactive: Droop, dreactive: Droop)

  datatype Grid = Grid(
    p: real, q: real, s: real, v: real, f: real, ph: real, vcmd: real, fcmd: real,
    dactive: Droop, dreactive: Droop, dactiveExternal: Droop, dreactiveExternal: Droop)

  datatype Gen = Gen(
    id: string, on: bool, oncmd: bool, offcmd: bool,
    gridForming: bool, gridFormingCmd: bool, gridFollowingCmd: bool,
    v: real, f: real, ph: real, p: real, q: real, s: real,
    pcmd: real, qcmd: real, pramp: real, qramp: real, pfMode: bool, pfCmd: real, noise: real,
    vcmd: real, fcmd: real, dactive: Droop, dreactive: Droop)

  datatype Load = Load(
    id: string, on: bool, oncmd: bool, offcmd: bool,
    v: real, f: real, ph: real, p: real, q: real, s: real,
    pcmd: real, qcmd: real, pramp: real, qramp: real, noise: real,
    randomWalk: bool, pmin: real, pmax: real, qmin: real, qmax: real)

  datatype Solar = Solar(
    id: string, on: bool, oncmd: bool, offcmd: bool,
    v: real, f: real, ph: real, p: real, q: real, s: real,
    pcmd: real, plim: real, phigh: real, qcmd: real, pramp: real, qramp: real,
    percentCmd: bool, pfMode: bool, pfCmd: real, noise: real)

  datatype Asset = AFeed(feed: Feed) | AGrid(grid: Grid) | AGen(gen: Gen) | ALoad(load: Load) | ASolar(solar: Solar)

  function VoltTerminal(v: real, f: real, ph: real): Terminal {
    ZERO.(v := v, f := f, ph := ph)
  }

  function PowerTerminal(p: real, q: real, s: real): Terminal {
    ZERO.(p := p, q := q, s := s)
  }

  function LoadNoise(env: Env, id: string, k: nat, low: real, high: real): real {
    env.draw(id, k) * (high - low) + low
  }

  function Min(a: real, b: real): real { if a < b then a else b }

  function Max(a: real, b: real): real { if a < b then b else a }

  // ---- Feeder ----------------------------------------------------------------------------

  /** The breaker's commands: reset, then trip before open before close. */
  function FeedCommands(f: Feed): Feed {
    var f1 := if f.resetcmd && f.tripped then f.(tripped := false, resetcmd := false) else f;
    if f1.tripcmd then f1.(tripped := true, closed := false, tripcmd := false)
    else if f1.opencmd && f1.closed then f1.(closed := false, opencmd := false)
    else if f1.closecmd && !f1.closed && !f1.tripped then f1.(closed := true, closecmd := false)
    else f1
  }

  function FeedUpdateMode(f: Feed, input: Terminal): (Feed, Terminal) {
    var f1 := FeedCommands(f);
    var f2 :=
      if f1.closed then f1.(v1 := input.v, v2 := input.v, f1 := input.f, f2 := input.f, ph := input.ph)
      else f1.(v1 := input.v, v2 := 0.0, f1 := input.f, f2 := 0.0);
    (f2, VoltTerminal(f2.v2, f2.f2, f2.ph))
  }

  function FeedGetLoadLines(f: Feed, input: Terminal): (Feed, Terminal) {
    if f.closed then (f, input)
    else (f.(v2 := input.v, f2 := input.f, ph := input.ph, dactive := input.dHertz, dreactive := input.dVolts), ZERO)
  }

  function FeedDistributeVoltage(f: Feed, input: Terminal): (Feed, Terminal) {
    var f1 :=
      if f.closed then f.(v1 := input.v, v2 := input.v, f1 := input.f, f2 := input.f, ph := input.ph)
      else f.(v1 := input.v, f1 := input.f);
    (f1, VoltTerminal(f1.v2, f1.f2, f1.ph))
  }

  function FeedCalculateState(f: Feed, input: Terminal): (Feed, Terminal) {
    (f.(p := if f.polrev then -input.p else input.p, q := if f.polrev then -input.q else input.q, s := input.s),
     if f.closed then PowerTerminal(input.p, input.q, input.s) else ZERO)
  }

  function FeedDistributeLoad(f: Feed, input: Terminal): (Feed, Terminal) {
    if f.closed then (f, input)
    else
      var p, q := if f.polrev then -f.p else f.p, if f.polrev then -f.q else f.q;
      (f, PowerTerminal(p, q, f.s).(f := GetX(-p, f.dactive.slope, f.dactive.offset),
                                    v := GetX(-q, f.dreactive.slope, f.dreactive.offset)))
  }

  /** The flow a closed feeder carries exceeds one of its limits. */
  predicate Overloaded(f: Feed, input: Terminal) {
    Abs(input.p) > f.pmax || Abs(input.q) > f.qmax || input.s > f.smax
  }

  function FeedUpdateState(f: Feed, input: Terminal): (Feed, Terminal) {
    if f.closed then
      (f.(tripcmd := f.tripcmd || Overloaded(f, input),
          p := if f.polrev then -input.p else input.p, q := if f.polrev then -input.q else input.q, s := input.s),
       PowerTerminal(input.p, input.q, input.s))
    else (f.(p := 0.0, q := 0.0, s := 0.0), ZERO)
  }

  // ---- Grid --------------------------------------------------------------------------------

  function Commanded(d: Droop, x: real): Droop {
    d.(xNom := x, slope := Slope(d.percent, d.yNom, x), offset := Offset(d.percent, d.yNom, x))
  }

  function GridUpdateMode(g: Grid, input: Terminal): (Grid, Terminal) {
    (g, VoltTerminal(g.v, g.f, g.ph))
  }

  function GridGetLoadLines(g: Grid, input: Terminal): (Grid, Terminal) {
    var own := PowerTerminal(g.p, g.q, 0.0).(dHertz := Commanded(g.dactive, g.fcmd), dVolts := Commanded(g.dreactive, g.vcmd));
    var out := Combine(own, input);
    (g.(dactiveExternal := out.dHertz, dreactiveExternal := out.dVolts, v := out.v, f := out.f), out)
  }

  function GridDistributeVoltage(g: Grid, input: Terminal): (Grid, Terminal) {
    (g, VoltTerminal(g.v, g.f, g.ph))
  }

  function GridCalculateState(g: Grid, input: Terminal): (Grid, Terminal) {
    (g.(p := input.p, q := input.q, s := input.s), PowerTerminal(input.p, input.q, input.s))
  }

  function GridDistributeLoad(g: Grid, input: Terminal): (Grid, Terminal) {
    (g, PowerTerminal(g.p, g.q, g.s).(
      f := GetX(-g.p, g.dactiveExternal.slope, g.dactiveExternal.offset),
      v := GetX(-g.q, g.dreactiveExternal.slope, g.dreactiveExternal.offset)))
  }

  function GridUpdateState(g: Grid, input: Terminal): (Grid, Terminal) {
    (g.(p := input.p, q := input.q, s := input.s),
     Terminal(g.v, 0.0, input.p, input.q, input.s, g.f, g.ph, g.dactive, g.dreactive, NO_DROOP))
  }

  // ---- Generator -----------------------------------------------------------------------------

  function GenFormingMode(g: Gen): Gen {
    if g.gridFormingCmd then g.(gridForming := true, gridFormingCmd := false)
    else if g.gridFollowingCmd && g.gridForming then g.(gridForming := false, gridFollowingCmd := false)
    else g
  }

  function GenUpdateMode(g: Gen, input: Terminal): (Gen, Terminal) {
    var g1 := GenFormingMode(g);
    (if !g1.on && g1.oncmd then g1.(on := true, oncmd := false)
     else if g1.on && g1.offcmd then g1.(on := false, offcmd := false)
     else g1, ZERO)
  }

  function GenGetLoadLines(g: Gen, input: Terminal): (Gen, Terminal) {
    (g, if g.gridForming && g.on
        then PowerTerminal(g.p, g.q, 0.0).(dHertz := g.dactive.(xNom := g.fcmd), dVolts := g.dreactive.(xNom := g.vcmd))
        else ZERO)
  }

  function GenDistributeVoltage(g: Gen, input: Terminal): (Gen, Terminal) {
    var g1 := if input.v <= 0.0 then g.(on := false, oncmd := false, offcmd := false) else g;
    (g1.(v := input.v, f := input.f, ph := input.ph), ZERO)
  }

  function GenCalculateState(g: Gen, input: Terminal, env: Env): (Gen, Terminal) {
    if g.gridForming then (g, ZERO)
    else
      var pcmd := g.pcmd + PowerNoise(env.draw(g.id, 0), g.noise);
      var qcmd := (if g.pfMode then env.pfToQ(g.pcmd, g.pfCmd) else g.qcmd) + PowerNoise(env.draw(g.id, 1), g.noise);
      var p := if g.on then GetSlew(g.p, pcmd, g.pramp, env.dt / 60.0) else 0.0;
      var q := if g.on then GetSlew(g.q, qcmd, g.qramp, env.dt / 60.0) else 0.0;
      (g.(p := p, q := q), PowerTerminal(p, q, 0.0))
  }

  function GenUpdateState(g: Gen, input: Terminal, env: Env): (Gen, Terminal) {
    var p := if !g.gridForming then g.p else if g.on then GetY(input.f, g.dactive.slope, g.dactive.offset) else 0.0;
    var q := if !g.gridForming then g.q else if g.on then GetY(input.v, g.dreactive.slope, g.dreactive.offset) else 0.0;
    var s := env.rss(p, q);
    (g.(p := p, q := q, s := s), PowerTerminal(p, q, s))
  }

  // ---- Load ------------------------------------------------------------------------------------

  function LoadUpdateMode(l: Load, input: Terminal): (Load, Terminal) {
    (if !l.on && l.oncmd then l.(on := true, oncmd := false)
     else if l.on && l.offcmd then l.(on := false, offcmd := false)
     else l, ZERO)
  }

  function LoadGetLoadLines(l: Load, input: Terminal): (Load, Terminal) {
    (l, ZERO.(p := l.p))
  }

  function LoadDistributeVoltage(l: Load, input: Terminal): (Load, Terminal) {
    var l1 := if input.v == 0.0 then l.(on := false, oncmd := false, offcmd := false) else l;
    (l1.(v := input.v, f := input.f, ph := input.ph), ZERO)
  }

  function LoadCalculateState(l: Load, input: Terminal, env: Env): (Load, Terminal) {
    var pcmd := (if l.randomWalk then LoadNoise(env, l.id, 2, l.pmin, l.pmax) else l.pcmd) + PowerNoise(env.draw(l.id, 0), l.noise);
    var qcmd := (if l.randomWalk then LoadNoise(env, l.id, 3, l.qmin, l.qmax) else l.qcmd) + PowerNoise(env.draw(l.id, 1), l.noise);
    var p := if l.on then GetSlew(l.p, pcmd, l.pramp, env.dt / 60.0) else 0.0;
    var q := if l.on then GetSlew(l.q, qcmd, l.qramp, env.dt / 60.0) else 0.0;
    (l.(p := p, q := q), PowerTerminal(p, q, 0.0))
  }

  function LoadUpdateState(l: Load, input: Terminal, env: Env): (Load, Terminal) {
    var s := env.rss(l.p, l.q);
    (l.(s := s), PowerTerminal(l.p, l.q, s))
  }

  // ---- Solar -----------------------------------------------------------------------------------

  function SolarUpdateMode(pv: Solar, input: Terminal): (Solar, Terminal) {
    (if !pv.on && pv.oncmd then pv.(on := true, oncmd := false)
     else if pv.on && pv.offcmd then pv.(on := false, offcmd := false)
     else pv, ZERO)
  }

  function SolarDistributeVoltage(pv: Solar, input: Terminal): (Solar, Terminal) {
    var pv1 := if input.v <= 0.0 then pv.(on := false, oncmd := false, offcmd := false) else pv;
    (pv1.(v := input.v, f := input.f, ph := input.ph), ZERO)
  }

  /** A percentage of the rated power. */
  function OfRated(percent: real, phigh: real): real {
    percent * phigh / 100.0
  }

  function SolarCalculateState(pv: Solar, input: Terminal, env: Env): (Solar, Terminal) {
    var plim0 := if pv.percentCmd then OfRated(pv.plim, pv.phigh) else pv.plim;
    var qcmd0 := if pv.percentCmd then OfRated(pv.qcmd, pv.phigh) else pv.qcmd;
    var qcmd := (if pv.pfMode then env.pfToQ(plim0, pv.pfCmd) else qcmd0) + PowerNoise(env.draw(pv.id, 1), pv.noise);
    var plim := Min(plim0, pv.phigh) + PowerNoise(env.draw(pv.id, 0), pv.noise);
    var pcmd := Min(plim, Max(pv.pcmd + PowerNoise(env.draw(pv.id, 2), pv.noise), 0.0));
    var p := if pv.on then GetSlew(pv.p, pcmd, pv.pramp, env.dt / 60.0) else 0.0;
    var q := if pv.on then GetSlew(pv.q, qcmd, pv.qramp, env.dt / 60.0) else 0.0;
    (pv.(f := input.f, ph := input.ph, p := p, q := q), PowerTerminal(p, q, 0.0))
  }

  function SolarUpdateState(pv: Solar, input: Terminal, env: Env): (Solar, Terminal) {
    var s := env.rss(pv.p, pv.q);
    (pv.(s := s), PowerTerminal(pv.p, pv.q, s))
  }

  // ---- Any asset ---------------------------------------------------------------------------------

  function UpdateMode(a: Asset, input: Terminal): (Asset, Terminal) {
    match a
    case AFeed(x) => var (y, t) := FeedUpdateMode(x, input); (AFeed(y), t)
    case AGrid(x) => var (y, t) := GridUpdateMode(x, input); (AGrid(y), t)
    case AGen(x) => var (y, t) := GenUpdateMode(x, input); (AGen(y), t)
    case ALoad(x) => var (y, t) := LoadUpdateMode(x, input); (ALoad(y), t)
    case ASolar(x) => var (y, t) := SolarUpdateMode(x, input); (ASolar(y), t)
  }

  function GetLoadLines(a: Asset, input: Terminal): (Asset, Terminal) {
    match a
    case AFeed(x) => var (y, t) := FeedGetLoadLines(x, input); (AFeed(y), t)
    case AGrid(x) => var (y, t) := GridGetLoadLines(x, input); (AGrid(y), t)
    case AGen(x) => var (y, t) := GenGetLoadLines(x, input); (AGen(y), t)
    case ALoad(x) => var (y, t) := LoadGetLoadLines(x, input); (ALoad(y), t)
    case ASolar(x) => (a, ZERO)
  }

  function DistributeVoltage(a: Asset, input: Terminal): (Asset, Terminal) {
    match a
    case AFeed(x) => var (y, t) := FeedDistributeVoltage(x, input); (AFeed(y), t)
    case AGrid(x) => var (y, t) := GridDistributeVoltage(x, input); (AGrid(y), t)
    case AGen(x) => var (y, t) := GenDistributeVoltage(x, input); (AGen(y), t)
    case ALoad(x) => var (y, t) := LoadDistributeVoltage(x, input); (ALoad(y), t)
    case ASolar(x) => var (y, t) := SolarDistributeVoltage(x, input); (ASolar(y), t)
  }

  function CalculateState(a: Asset, input: Terminal, env: Env): (Asset, Terminal) {
    match a
    case AFeed(x) => var (y, t) := FeedCalculateState(x, input); (AFeed(y), t)
    case AGrid(x) => var (y, t) := GridCalculateState(x, input); (AGrid(y), t)
    case AGen(x) => var (y, t) := GenCalculateState(x, input, env); (AGen(y), t)
    case ALoad(x) => var (y, t) := LoadCalculateState(x, input, env); (ALoad(y), t)
    case ASolar(x) => var (y, t) := SolarCalculateState(x, input, env); (ASolar(y), t)
  }

  function DistributeLoad(a: Asset, input: Terminal): (Asset, Terminal) {
    match a
    case AFeed(x) => var (y, t) := FeedDistributeLoad(x, input); (AFeed(y), t)
    case AGrid(x) => var (y, t) := GridDistributeLoad(x, input); (AGrid(y), t)
    case _ => (a, input)
  }

  function UpdateState(a: Asset, input: Terminal, env: Env): (Asset, Terminal) {
    match a
    case AFeed(x) => var (y, t) := FeedUpdateState(x, input); (AFeed(y), t)
    case AGrid(x) => var (y, t) := GridUpdateState(x, input); (AGrid(y), t)
    case AGen(x) => var (y, t) := GenUpdateState(x, input, env); (AGen(y), t)
    case ALoad(x) => var (y, t) := LoadUpdateState(x, input, env); (ALoad(y), t)
    case ASolar(x) => var (y, t) := SolarUpdateState(x, input, env); (ASolar(y), t)
  }
}
