/** What grid-following generators, loads and solar plants do with their setpoints, and
    what the storage system does with its charge. */
module PsmFollowers {
  import opened PsmDroop
  import opened PsmAssets
  import S = PsmStorage

  /** Power moves towards a target by the full ramp of one tick, or exactly onto it. Ramps
      are per minute, ticks in seconds. */
  predicate Approaches(was: real, now: real, target: real, ramp: real, dt: real) {
    var most := ramp * (dt / 60.0);
    Abs(target - now) == (if Abs(target - was) <= most then 0.0 else Abs(target - was) - most)
    && Abs(now - was) + Abs(target - now) == Abs(target - was)
  }

  predicate Ticks(ramp: real, dt: real) {
    ramp * (dt / 60.0) >= 0.0
  }

  /** A setpoint with its noise: the draw times half the noise amplitude. */
  function Noisy(setpoint: real, draw: real, noise: real): real {
    setpoint + draw * (noise / 2.0)
  }

  /** A draw spread over a range. */
  function Spread(draw: real, low: real, high: real): real {
    low + draw * (high - low)
  }

  lemma GenApproaches(g: Gen, input: Terminal, env: Env)
    requires g.on && !g.gridForming && Ticks(g.pramp, env.dt) && Ticks(g.qramp, env.dt)
    ensures var after := GenCalculateState(g, input, env).0;
      Approaches(g.p, after.p, Noisy(g.pcmd, env.draw(g.id, 0), g.noise), g.pramp, env.dt)
      && Approaches(g.q, after.q, Noisy(if g.pfMode then env.pfToQ(g.pcmd, g.pfCmd) else g.qcmd, env.draw(g.id, 1), g.noise), g.qramp, env.dt)
  {
    hide GetSlew, Approaches, Ticks;
    SlewStep(g.p, Noisy(g.pcmd, env.draw(g.id, 0), g.noise), g.pramp, env.dt);
    SlewStep(g.q, Noisy(if g.pfMode then env.pfToQ(g.pcmd, g.pfCmd) else g.qcmd, env.draw(g.id, 1), g.noise), g.qramp, env.dt);
  }

  lemma SlewStep(was: real, target: real, ramp: real, dt: real)
    requires Ticks(ramp, dt)
    ensures Approaches(was, GetSlew(was, target, ramp, dt / 60.0), target, ramp, dt)
  {
    hide GetSlew;
    SlewApproaches(was, target, ramp, dt / 60.0);
  }

  /** A load follows its setpoints, or with the random walk a draw from its range. */
  lemma LoadApproaches(l: Load, input: Terminal, env: Env)
    requires l.on && Ticks(l.pramp, env.dt) && Ticks(l.qramp, env.dt)
    ensures var after := LoadCalculateState(l, input, env).0;
      var p := if l.randomWalk then Spread(env.draw(l.id, 2), l.pmin, l.pmax) else l.pcmd;
      var q := if l.randomWalk then Spread(env.draw(l.id, 3), l.qmin, l.qmax) else l.qcmd;
      Approaches(l.p, after.p, Noisy(p, env.draw(l.id, 0), l.noise), l.pramp, env.dt)
      && Approaches(l.q, after.q, Noisy(q, env.draw(l.id, 1), l.noise), l.qramp, env.dt)
  {
    hide GetSlew, Approaches, Ticks, LoadNoise, Spread;
    SpreadIs(env, l.id, 2, l.pmin, l.pmax);
    SpreadIs(env, l.id, 3, l.qmin, l.qmax);
    SlewStep(l.p, Noisy(if l.randomWalk then Spread(env.draw(l.id, 2), l.pmin, l.pmax) else l.pcmd, env.draw(l.id, 0), l.noise), l.pramp, env.dt);
    SlewStep(l.q, Noisy(if l.randomWalk then Spread(env.draw(l.id, 3), l.qmin, l.qmax) else l.qcmd, env.draw(l.id, 1), l.noise), l.qramp, env.dt);
  }

  lemma SpreadIs(env: Env, id: string, k: nat, low: real, high: real)
    ensures LoadNoise(env, id, k, low, high) == Spread(env.draw(id, k), low, high)
  {
  }

  /** The least of the limit, the rating and the power available, which is not negative. */
  predicate SolarTarget(target: real, limit: real, rating: real, available: real) {
    target <= limit && target <= rating
    && (available >= 0.0 ==> target <= available) && (available < 0.0 ==> target <= 0.0)
    && (target == limit || target == rating || target == available || target == 0.0 > available)
  }

  /** A solar plant aims at the least of its limit, its rating and what is available; limit
      and reactive setpoint may be percentages of the rating. */
  lemma SolarApproaches(pv: Solar, input: Terminal, env: Env)
    requires pv.on && pv.noise == 0.0 && Ticks(pv.pramp, env.dt) && Ticks(pv.qramp, env.dt)
    ensures var after := SolarCalculateState(pv, input, env).0;
      var limit := if pv.percentCmd then pv.plim * pv.phigh / 100.0 else pv.plim;
      var q := if pv.pfMode then env.pfToQ(limit, pv.pfCmd) else if pv.percentCmd then pv.qcmd * pv.phigh / 100.0 else pv.qcmd;
      Approaches(pv.q, after.q, q, pv.qramp, env.dt)
      && exists target :: Approaches(pv.p, after.p, target, pv.pramp, env.dt) && SolarTarget(target, limit, pv.phigh, pv.pcmd)
  {
    hide PowerNoise, GetSlew, Approaches, Ticks, OfRated, SolarTarget;
    RatedIs(pv.plim, pv.phigh);
    RatedIs(pv.qcmd, pv.phigh);
    NoNoise(env.draw(pv.id, 0));
    NoNoise(env.draw(pv.id, 1));
    NoNoise(env.draw(pv.id, 2));
    var limit := if pv.percentCmd then OfRated(pv.plim, pv.phigh) else pv.plim;
    var target := Min(Min(limit, pv.phigh), Max(pv.pcmd, 0.0));
    SlewStep(pv.p, target, pv.pramp, env.dt);
    SlewStep(pv.q, if pv.pfMode then env.pfToQ(limit, pv.pfCmd) else if pv.percentCmd then OfRated(pv.qcmd, pv.phigh) else pv.qcmd, pv.qramp, env.dt);
    LeastIsTarget(limit, pv.phigh, pv.pcmd);
    assert Approaches(pv.p, SolarCalculateState(pv, input, env).0.p, target, pv.pramp, env.dt);
  }

  lemma LeastIsTarget(limit: real, rating: real, available: real)
    ensures SolarTarget(Min(Min(limit, rating), Max(available, 0.0)), limit, rating, available)
  {
  }

  lemma RatedIs(percent: real, phigh: real)
    ensures OfRated(percent, phigh) == percent * phigh / 100.0
  {
  }

  lemma NoNoise(draw: real)
    ensures PowerNoise(draw, 0.0) == 0.0
  {
    assert draw * (0.0 / 2.0) == 0.0;
  }

  /** The storage system's charge stays between empty and full and moves by exactly what it
      delivers and loses, also in the tick that fills or empties it. */
  lemma StorageConserves(e: S.Ess, c: S.Config, f: real, v: real, dt: real)
    requires c.cap > 0.0 && dt > 0.0 && 0.0 <= e.soc <= 100.0
    ensures var a := S.UpdateState(e, c, f, v, dt);
      var asked := if e.sw.forming then GetY(f, c.dactive.slope, c.dactive.offset) else e.p;
      0.0 <= a.soc <= 100.0
      && (S.Running(e) ==> (a.soc - e.soc) / 100.0 * c.cap == -(a.p + (c.idleloss + c.pesr * (asked * asked))) * (dt / 3600.0))
      && (!S.Running(e) ==> a.soc == e.soc && a.p == 0.0)
  {
    hide GetIntegral, S.Loss, GetY, S.DeliveredAt;
    LossIs(c, if e.sw.forming then GetY(f, c.dactive.slope, c.dactive.offset) else e.p);
    var a := S.UpdateState(e, c, f, v, dt);
    var asked := if e.sw.forming then GetY(f, c.dactive.slope, c.dactive.offset) else e.p;
    var loss := S.Loss(c, asked);
    var i := S.Charge(e.soc, asked, c, dt);
    IntegralIsExact(e.soc / 100.0, -(asked + loss) / c.cap, dt / 3600.0, 0.0, 1.0);
    if S.Running(e) {
      DeliveredIs(i.rate, c.cap, loss, asked, !i.over && !i.under);
      assert a.p + loss == -i.rate * c.cap;
      Moves(e.soc, a.soc, i.rate, c.cap, dt / 3600.0, a.p + loss);
    }
  }

  lemma LossIs(c: S.Config, p: real)
    ensures S.Loss(c, p) == c.idleloss + c.pesr * (p * p)
  {
  }

  lemma DeliveredIs(rate: real, cap: real, loss: real, asked: real, free: bool)
    requires cap > 0.0 && (free ==> rate == -(asked + loss) / cap)
    ensures S.DeliveredAt(rate, cap, loss) == -rate * cap - loss
    ensures free ==> asked + loss == -rate * cap
  {
    Cancel(-(asked + loss), cap);
  }

  lemma Moves(soc: real, next: real, rate: real, cap: real, hours: real, drawn: real)
    requires next / 100.0 - soc / 100.0 == rate * hours && drawn == -rate * cap
    ensures (next - soc) / 100.0 * cap == -drawn * hours
  {
    assert (next - soc) / 100.0 == rate * hours;
    assert rate * hours * cap == rate * cap * hours;
    assert -drawn == rate * cap;
  }
}
