/** The arithmetic that all power-system assets share: droop lines, ramps, integration
    and the terminal values that pass up and down the tree. Numbers are reals. */
module PsmDroop {

  /** y == slope * x + offset, with the nominal values the line was made from. */
  datatype Droop = Droop(yNom: real, percent: real, xNom: real, slope: real, offset: real)

  const NO_DROOP: Droop := Droop(0.0, 0.0, 0.0, 0.0, 0.0)

  datatype Terminal = Terminal(
    v: real, vdc: real, p: real, q: real, s: real, f: real, ph: real,
    dHertz: Droop, dVolts: Droop, dVdc: Droop)

  const ZERO: Terminal := Terminal(0.0, 0.0, 0.0, 0.0, 0.0, 0.0, 0.0, NO_DROOP, NO_DROOP, NO_DROOP)

  const STIFF: real := -1000000000000000.0

  function Slope(percent: real, yNom: real, xNom: real): real {
    if xNom * percent != 0.0 then yNom / (-xNom * percent) else STIFF
  }

  function Offset(percent: real, yNom: real, xNom: real): real {
    -1.0 * Slope(percent, yNom, xNom) * xNom
  }

  function GetY(x: real, slope: real, offset: real): real {
    slope * x + offset
  }

  function GetX(y: real, slope: real, offset: real): real {
    if slope != 0.0 then (y - offset) / slope else 0.0
  }

  /** The line through the nominal point: no output at the nominal x, full output one
      droop percentage below it. */
  lemma SlopeMeetsNominals(percent: real, yNom: real, xNom: real)
    ensures GetY(xNom, Slope(percent, yNom, xNom), Offset(percent, yNom, xNom)) == 0.0
    ensures xNom * percent != 0.0 ==>
      GetY(xNom * (1.0 - percent), Slope(percent, yNom, xNom), Offset(percent, yNom, xNom)) == yNom
  {
    var m := Slope(percent, yNom, xNom);
    if xNom * percent != 0.0 {
      Cancel(yNom, -xNom * percent);
      assert m * (xNom * (1.0 - percent)) - m * xNom == m * (-xNom * percent);
    }
  }

  /** The slope is negative exactly when the source is stiff or its nominal output has the
      sign of its droop width. */
  lemma SlopeIsNegative(percent: real, yNom: real, xNom: real)
    ensures Slope(percent, yNom, xNom) < 0.0 <==> xNom * percent == 0.0 || yNom * (xNom * percent) > 0.0
  {
    var d := xNom * percent;
    if d != 0.0 {
      Cancel(yNom, -d);
      var m := yNom / -d;
      assert m * -d == yNom;
      assert -xNom * percent == -d;
      assert yNom * d == -(m * (d * d));
      assert d * d > 0.0;
      if m < 0.0 {
        Signs(-m, d * d);
      } else if m > 0.0 {
        Signs(m, d * d);
      }
    }
  }

  lemma Signs(a: real, b: real)
    requires a > 0.0 && b > 0.0
    ensures a * b > 0.0
  {
  }

  lemma Cancel(y: real, d: real)
    requires d != 0.0
    ensures y / d * d == y
  {
  }

  lemma NegatedRate(x: real, cap: real, t: real)
    requires cap != 0.0
    ensures -x / cap * t == -(x / cap * t)
  {
    assert -x / cap == -(x / cap);
  }

  /** Reading a line backwards undoes reading it forwards. */
  lemma LineRoundTrip(y: real, slope: real, offset: real)
    requires slope != 0.0
    ensures GetY(GetX(y, slope, offset), slope, offset) == y
  {
    Cancel(y - offset, slope);
  }

  function CombineDroops(a: Droop, b: Droop): Droop {
    Droop(0.0, 0.0, 0.0, a.slope + b.slope, a.offset + b.offset)
  }

  function Combine(a: Terminal, b: Terminal): Terminal {
    var p, q := a.p + b.p, a.q + b.q;
    var hz, vt, dc := CombineDroops(a.dHertz, b.dHertz), CombineDroops(a.dVolts, b.dVolts), CombineDroops(a.dVdc, b.dVdc);
    Terminal(GetX(q, vt.slope, vt.offset), GetX(p, dc.slope, dc.offset), p, q, a.s + b.s,
             GetX(p, hz.slope, hz.offset), 0.0, hz, vt, dc)
  }

  /** Two terminals combined add their powers, and sit where their joint lines meet them: in
      frequency and direct voltage the active power, in voltage the reactive power. */
  lemma CombineMeetsLines(a: Terminal, b: Terminal)
    ensures var c := Combine(a, b);
      c.p == a.p + b.p && c.q == a.q + b.q && c.s == a.s + b.s
      && (a.dHertz.slope + b.dHertz.slope != 0.0 ==> GetY(c.f, a.dHertz.slope + b.dHertz.slope, a.dHertz.offset + b.dHertz.offset) == c.p)
      && (a.dVolts.slope + b.dVolts.slope != 0.0 ==> GetY(c.v, a.dVolts.slope + b.dVolts.slope, a.dVolts.offset + b.dVolts.offset) == c.q)
      && (a.dVdc.slope + b.dVdc.slope != 0.0 ==> GetY(c.vdc, a.dVdc.slope + b.dVdc.slope, a.dVdc.offset + b.dVdc.offset) == c.p)
  {
    hide GetX, GetY;
    LineIsMet(a.p + b.p, CombineDroops(a.dHertz, b.dHertz));
    LineIsMet(a.q + b.q, CombineDroops(a.dVolts, b.dVolts));
    LineIsMet(a.p + b.p, CombineDroops(a.dVdc, b.dVdc));
  }

  lemma LineIsMet(y: real, d: Droop)
    ensures d.slope != 0.0 ==> GetY(GetX(y, d.slope, d.offset), d.slope, d.offset) == y
  {
    if d.slope != 0.0 {
      LineRoundTrip(y, d.slope, d.offset);
    }
  }

  // ---- Ramps ---------------------------------------------------------------------------

  function Abs(x: real): real {
    if x < 0.0 then -x else x
  }

  function GetSlew(current: real, target: real, rate: real, dt: real): real {
    var most := rate * dt;
    if current < target then
      if current + most < target then current + most else target
    else
      if current - most > target then current - most else target
  }

  /** With a non-negative step a ramp moves towards its target, by the full step or
      exactly onto the target, never past it. */
  lemma SlewApproaches(current: real, target: real, rate: real, dt: real)
    requires rate * dt >= 0.0
    ensures var next := GetSlew(current, target, rate, dt);
      Abs(target - next) == (if Abs(target - current) <= rate * dt then 0.0 else Abs(target - current) - rate * dt)
      && Abs(next - current) + Abs(target - next) == Abs(target - current)
  {
  }

  /** Normally distributed noise; the draw is the standard normal sample. */
  function PowerNoise(draw: real, noise: real): real {
    draw * (noise / 2.0)
  }

  // ---- Integration ------------------------------------------------------------------------

  datatype Integral = Integral(accumulated: real, rate: real, under: bool, over: bool)

  function GetIntegral(accumulated: real, rate: real, dt: real, low: real, high: real): Integral
    requires dt != 0.0
  {
    var next := accumulated + rate * dt;
    if next > high then Integral(high, (high - accumulated) / dt, false, true)
    else if next < low then Integral(low, (low - accumulated) / dt, true, false)
    else Integral(next, rate, false, false)
  }

  /** Between zero and one, the integrator follows the rate until it would leave them. */
  lemma IntegralIs(accumulated: real, rate: real, dt: real, next: real)
    requires dt != 0.0 && next == accumulated + rate * dt
    ensures var i := GetIntegral(accumulated, rate, dt, 0.0, 1.0);
      (i.over <==> next > 1.0) && (i.under <==> next < 0.0)
      && i.accumulated == if next > 1.0 then 1.0 else if next < 0.0 then 0.0 else next
  {
  }

  /** The returned rate accounts for the whole change, also when the integrator saturates;
      it then lies between rest and the rate asked for. */
  lemma IntegralIsExact(accumulated: real, rate: real, dt: real, low: real, high: real)
    requires dt > 0.0 && low <= accumulated <= high
    ensures var i := GetIntegral(accumulated, rate, dt, low, high);
      low <= i.accumulated <= high
      && i.accumulated - accumulated == i.rate * dt
      && (i.over ==> i.accumulated == high && 0.0 <= i.rate < rate)
      && (i.under ==> i.accumulated == low && rate < i.rate <= 0.0)
      && (!i.over && !i.under ==> i.rate == rate)
  {
    hide GetIntegral;
    IntegralWhenOver(accumulated, rate, dt, low, high);
    IntegralWhenUnder(accumulated, rate, dt, low, high);
    IntegralWhenFree(accumulated, rate, dt, low, high);
  }

  lemma IntegralWhenFree(accumulated: real, rate: real, dt: real, low: real, high: real)
    requires dt != 0.0
    ensures var i := GetIntegral(accumulated, rate, dt, low, high);
      !i.over && !i.under ==> i.rate == rate && i.accumulated - accumulated == rate * dt && low <= i.accumulated <= high
    ensures var i := GetIntegral(accumulated, rate, dt, low, high);
      !(i.over && i.under)
      && (i.over <==> accumulated + rate * dt > high)
      && (i.under ==> accumulated + rate * dt < low)
  {
  }

  /** The rate that covers a distance in a time. */
  lemma Cancelled(distance: real, rate: real, dt: real)
    requires dt > 0.0
    ensures distance / dt * dt == distance
    ensures 0.0 <= distance < rate * dt ==> 0.0 <= distance / dt < rate
    ensures rate * dt < distance <= 0.0 ==> rate < distance / dt <= 0.0
  {
    var r := distance / dt;
    Cancel(distance, dt);
    Less(r, rate, dt);
    Less(rate, r, dt);
    Less(-r, 0.0, dt);
    assert -r * dt == -distance;
  }

  lemma IntegralWhenOver(accumulated: real, rate: real, dt: real, low: real, high: real)
    requires dt > 0.0 && low <= accumulated <= high
    ensures var i := GetIntegral(accumulated, rate, dt, low, high);
      i.over ==> i.accumulated == high && i.accumulated - accumulated == i.rate * dt && 0.0 <= i.rate < rate
  {
    Cancelled(high - accumulated, rate, dt);
  }

  lemma IntegralWhenUnder(accumulated: real, rate: real, dt: real, low: real, high: real)
    requires dt > 0.0 && low <= accumulated <= high
    ensures var i := GetIntegral(accumulated, rate, dt, low, high);
      i.under ==> i.accumulated == low && i.accumulated - accumulated == i.rate * dt && rate < i.rate <= 0.0
  {
    Cancelled(low - accumulated, rate, dt);
  }

  lemma Less(a: real, b: real, d: real)
    requires d > 0.0
    ensures a * d < b * d <==> a < b
    ensures a * d <= 0.0 <==> a <= 0.0
  {
    if a < b {
      Signs(b - a, d);
      assert b * d - a * d == (b - a) * d;
    } else if b < a {
      Signs(a - b, d);
      assert a * d - b * d == (a - b) * d;
    }
    if a > 0.0 {
      Signs(a, d);
    } else if a < 0.0 {
      Signs(-a, d);
      assert -a * d == -(a * d);
    }
  }
}
