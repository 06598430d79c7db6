/** The battery's energy: what one powered update does to the racks, and conservation over
    whole runs. */
module PsmEnergy {
  import opened PsmDroop
  import opened PsmBattery

  /** The losses of a rack that delivers a share. */
  function Loss(r: Rack, share: real): real {
    r.idleloss + r.pesr * (share * share)
  }

  function Charge(r: Rack, share: real, dt: real): Integral
    requires r.cap != 0.0 && dt != 0.0
  {
    GetIntegral(r.soc / 100.0, -(share + Loss(r, share)) / r.cap, dt / 3600.0, 0.0, 1.0)
  }

  /** The power drawn from a rack that charges at a rate, in capacities per hour. */
  function DrawnAt(rate: real, cap: real): real {
    -rate * cap
  }

  /** A closed rack delivers its share unless its charge runs full or empty; an open one
      rests. */
  function Powered(r: Rack, share: real, dt: real): Rack
    requires r.cap != 0.0 && dt != 0.0
  {
    if !r.dcContactor then r.(p := 0.0, pdc := 0.0)
    else
      var i := Charge(r, share, dt);
      if i.over || i.under
      then r.(soc := i.accumulated * 100.0, pdc := DrawnAt(i.rate, r.cap), p := DrawnAt(i.rate, r.cap) - Loss(r, share))
      else r.(soc := i.accumulated * 100.0, pdc := share + Loss(r, share), p := share)
  }

  predicate SoundRack(r: Rack) {
    r.cap > 0.0 && 0.0 <= r.soc <= 100.0
  }

  predicate Sound(racks: seq<Rack>) {
    forall i | 0 <= i < |racks| :: SoundRack(racks[i])
  }

  function PoweredAll(racks: seq<Rack>, share: real, dt: real): seq<Rack>
    requires Sound(racks) && dt != 0.0
  {
    seq(|racks|, i requires 0 <= i < |racks| => Powered(racks[i], share, dt))
  }

  function Rested(racks: seq<Rack>): seq<Rack> {
    seq(|racks|, i requires 0 <= i < |racks| => racks[i].(p := 0.0, pdc := 0.0))
  }

  /** Kilowatts over seconds, in kilowatt-hours. */
  function Kwh(power: real, dt: real): real {
    power * dt / 3600.0
  }

  function StoredEnergy(cap: real, soc: real): real {
    cap * soc / 100.0
  }

  // ---- Sums over racks --------------------------------------------------------------------

  /** What a sum adds up: delivered power, drawn power, state of charge of closed racks,
      losses of closed racks at a share, or stored energy. */
  datatype Measure = Delivered | Drawn | ClosedSoc | Losses(share: real) | Energy

  function Of(m: Measure, r: Rack): real {
    match m
    case Delivered => r.p
    case Drawn => r.pdc
    case ClosedSoc => if r.dcContactor then r.soc else 0.0
    case Losses(share) => if r.dcContactor then Loss(r, share) else 0.0
    case Energy => StoredEnergy(r.cap, r.soc)
  }

  function Sum(m: Measure, racks: seq<Rack>): real {
    if racks == [] then 0.0 else Sum(m, racks[..|racks| - 1]) + Of(m, racks[|racks| - 1])
  }

  // ---- UpdateState ----------------------------------------------------------------------------

  /** The power asked of the battery is divided evenly among all its racks. */
  function Share(power: real, racks: seq<Rack>): real
    requires racks != []
  {
    power / |racks| as real
  }

  /** The charge of the battery: the mean over the closed racks, as a percentage. */
  function MeanSoc(fractions: real, closed: int): real
    requires closed != 0
  {
    100.0 * fractions / closed as real
  }

  function UpdateState(b: Battery, power: real, dt: real): Battery
    requires Linked(b) && Sound(b.sbmu) && dt != 0.0
  {
    if b.sw.on && b.sw.dcContactor then
      var racks := PoweredAll(b.sbmu, Share(power, b.sbmu), dt);
      b.(sbmu := racks, p := Sum(Delivered, racks), pdc := Sum(Drawn, racks),
         soc := MeanSoc(Sum(ClosedSoc, racks) / 100.0, b.numRacks))
    else b.(sbmu := Rested(b.sbmu), p := 0.0, pdc := 0.0)
  }

  // ---- One rack ---------------------------------------------------------------------------------

  lemma ChargeIsExact(r: Rack, share: real, dt: real)
    requires SoundRack(r) && dt > 0.0
    ensures var i := Charge(r, share, dt);
      0.0 <= i.accumulated <= 1.0
      && i.accumulated - r.soc / 100.0 == i.rate * (dt / 3600.0)
      && (!i.over && !i.under ==> -i.rate * r.cap == share + Loss(r, share))
  {
    hide GetIntegral, Loss;
    var want := share + Loss(r, share);
    IntegralIsExact(r.soc / 100.0, -want / r.cap, dt / 3600.0, 0.0, 1.0);
    DrawnRate(-want, r.cap);
  }

  lemma PoweredParts(r: Rack, share: real, dt: real)
    requires SoundRack(r) && dt > 0.0
    ensures var s := Powered(r, share, dt);
      s.cap == r.cap && s.dcContactor == r.dcContactor && s.enabled == r.enabled
    ensures r.dcContactor ==>
      var s, i := Powered(r, share, dt), Charge(r, share, dt);
      s.soc == i.accumulated * 100.0 && s.pdc == -i.rate * r.cap && s.p == s.pdc - Loss(r, share)
    ensures !r.dcContactor ==>
      var s := Powered(r, share, dt);
      s.soc == r.soc && s.pdc == 0.0 && s.p == 0.0
  {
    hide GetIntegral, Loss, Charge;
    ChargeIsExact(r, share, dt);
  }

  /** A rack's stored energy changes by exactly what is drawn from it, its charge stays
      between empty and full, and it delivers what is drawn less its losses, saturated or
      not. */
  lemma RackConserves(r: Rack, share: real, dt: real)
    requires SoundRack(r) && dt > 0.0
    ensures var s := Powered(r, share, dt);
      SoundRack(s) && s.dcContactor == r.dcContactor && s.enabled == r.enabled
      && Of(Energy, s) == Of(Energy, r) - Kwh(s.pdc, dt)
      && Of(Delivered, s) == Of(Drawn, s) - Of(Losses(share), r)
  {
    hide Powered, Loss, Charge, Kwh, StoredEnergy;
    PoweredParts(r, share, dt);
    if r.dcContactor {
      var s, i := Powered(r, share, dt), Charge(r, share, dt);
      ChargeIsExact(r, share, dt);
      EnergyStep(r.cap, r.soc, i.accumulated, i.rate, dt, s.soc, s.pdc);
    } else {
      NoKwh(dt);
    }
  }

  lemma NoKwh(dt: real)
    ensures Kwh(0.0, dt) == 0.0
  {
  }

  lemma DrawnRate(x: real, cap: real)
    requires cap != 0.0
    ensures -(x / cap) * cap == -x
  {
    Cancel(x, cap);
  }

  lemma EnergyStep(cap: real, soc: real, next: real, rate: real, dt: real, soc': real, pdc: real)
    requires next - soc / 100.0 == rate * (dt / 3600.0)
    requires soc' == next * 100.0 && pdc == -rate * cap
    ensures StoredEnergy(cap, soc') == StoredEnergy(cap, soc) - Kwh(pdc, dt)
  {
    assert cap * (next * 100.0) / 100.0 == cap * next;
    assert cap * soc / 100.0 == cap * (soc / 100.0);
    assert cap * next - cap * (soc / 100.0) == cap * (next - soc / 100.0);
    assert rate * (dt / 3600.0) == rate * dt / 3600.0;
    Rearrange(cap, rate, dt);
  }

  lemma Rearrange(cap: real, rate: real, dt: real)
    ensures cap * (rate * dt / 3600.0) == -(-rate * cap * dt / 3600.0)
  {
    assert -rate * cap * dt == -(cap * (rate * dt));
  }

  // ---- All racks ------------------------------------------------------------------------------------

  lemma {:induction false} RacksConserve(racks: seq<Rack>, share: real, dt: real)
    requires Sound(racks) && dt > 0.0
    ensures var after := PoweredAll(racks, share, dt);
      Sound(after) && CountClosed(after) == CountClosed(racks) && CountEnabled(after) == CountEnabled(racks)
      && Sum(Energy, after) == Sum(Energy, racks) - Kwh(Sum(Drawn, after), dt)
      && Sum(Delivered, after) == Sum(Drawn, after) - Sum(Losses(share), racks)
    decreases |racks|
  {
    hide Powered, Loss, Kwh, StoredEnergy;
    NoKwh(dt);
    var after := PoweredAll(racks, share, dt);
    if racks != [] {
      var n := |racks| - 1;
      var front, last := racks[..n], racks[n];
      RacksConserve(front, share, dt);
      assert after[..n] == PoweredAll(front, share, dt);
      RackConserves(last, share, dt);
      KwhAdds(Sum(Drawn, after[..n]), after[n].pdc, dt);
      forall i | 0 <= i < |after| ensures SoundRack(after[i]) {
        if i < n {
          assert after[i] == after[..n][i];
        }
      }
    }
  }

  lemma KwhAdds(a: real, b: real, dt: real)
    ensures Kwh(a + b, dt) == Kwh(a, dt) + Kwh(b, dt)
  {
    assert (a + b) * dt == a * dt + b * dt;
  }

  lemma {:induction false} RestKeeps(racks: seq<Rack>)
    ensures var after := Rested(racks);
      CountClosed(after) == CountClosed(racks) && CountEnabled(after) == CountEnabled(racks)
      && Sum(Energy, after) == Sum(Energy, racks)
    decreases |racks|
  {
    hide Loss;
    var after := Rested(racks);
    if racks != [] {
      RestKeeps(racks[..|racks| - 1]);
      assert after[..|racks| - 1] == Rested(racks[..|racks| - 1]);
    }
  }

  /** The mean charge of the closed racks lies between empty and full. */
  lemma {:induction false} ClosedSocBounds(racks: seq<Rack>)
    requires Sound(racks)
    ensures 0.0 <= Sum(ClosedSoc, racks) <= 100.0 * CountClosed(racks) as real
    decreases |racks|
  {
    hide Loss;
    if racks != [] {
      ClosedSocBounds(racks[..|racks| - 1]);
    }
  }

  lemma MeanBounds(sum: real, closed: int)
    requires closed > 0 && 0.0 <= sum <= 100.0 * closed as real
    ensures 0.0 <= MeanSoc(sum / 100.0, closed) <= 100.0
    ensures MeanSoc(sum / 100.0, closed) == sum / closed as real
  {
    var n := closed as real;
    var m := sum / n;
    assert 100.0 * (sum / 100.0) == sum;
    Cancel(sum, n);
    Less(m, 0.0, n);
    Less(100.0, m, n);
  }

  lemma PoweredUpdate(b: Battery, power: real, dt: real)
    requires Linked(b) && Sound(b.sbmu) && dt > 0.0 && b.sw.on
    ensures b.sbmu != [] && b.sw.dcContactor && b.numRacks > 0
    ensures var a := UpdateState(b, power, dt);
      a.sbmu == PoweredAll(b.sbmu, Share(power, b.sbmu), dt)
      && a.p == Sum(Delivered, a.sbmu) && a.pdc == Sum(Drawn, a.sbmu)
      && a.soc == MeanSoc(Sum(ClosedSoc, a.sbmu) / 100.0, b.numRacks)
      && a.sw.on && a.sw.dcContactor && a.numRacks == b.numRacks && a.numRacksEnabled == b.numRacksEnabled
  {
    hide PoweredAll, Sum, Share, MeanSoc, CountEnabled;
  }

  lemma RestingUpdate(b: Battery, power: real, dt: real)
    requires Linked(b) && Sound(b.sbmu) && dt > 0.0 && !b.sw.on
    ensures var a := UpdateState(b, power, dt);
      a.sbmu == Rested(b.sbmu) && a.p == 0.0 && a.pdc == 0.0 && a.soc == b.soc
      && !a.sw.on && a.sw.dcContactor == b.sw.dcContactor && a.numRacks == b.numRacks && a.numRacksEnabled == b.numRacksEnabled
  {
    hide Rested, CountClosed, CountEnabled;
  }

  /** One update of the battery: the stored energy changes by exactly what is drawn, also
      when racks saturate. A powered update delivers what is drawn less the closed racks'
      losses, and the battery's charge is the mean over its closed racks. */
  lemma UpdateConserves(b: Battery, power: real, dt: real)
    requires Linked(b) && Sound(b.sbmu) && dt > 0.0
    ensures b.sw.on ==> b.sbmu != []
    ensures var a := UpdateState(b, power, dt);
      Linked(a) && Sound(a.sbmu)
      && Sum(Energy, a.sbmu) == Sum(Energy, b.sbmu) - Kwh(a.pdc, dt)
      && (b.sw.on ==>
            a.p == a.pdc - Sum(Losses(Share(power, b.sbmu)), b.sbmu)
            && a.soc == Sum(ClosedSoc, a.sbmu) / CountClosed(a.sbmu) as real
            && 0.0 <= a.soc <= 100.0)
      && (!b.sw.on ==> a.p == 0.0 && a.pdc == 0.0 && a.soc == b.soc)
  {
    hide UpdateState, PoweredAll, Rested, Sum, Kwh, Sound, Share, MeanSoc, CountClosed, CountEnabled;
    var a := UpdateState(b, power, dt);
    if b.sw.on {
      PoweredUpdate(b, power, dt);
      RacksConserve(b.sbmu, Share(power, b.sbmu), dt);
      ClosedSocBounds(a.sbmu);
      MeanBounds(Sum(ClosedSoc, a.sbmu), b.numRacks);
    } else {
      NoKwh(dt);
      RestingUpdate(b, power, dt);
      RestKeeps(b.sbmu);
      RestIsSound(b.sbmu);
    }
  }

  lemma RestIsSound(racks: seq<Rack>)
    requires Sound(racks)
    ensures Sound(Rested(racks))
  {
  }

  // ---- Whole runs ---------------------------------------------------------------------------------------

  /** What messages and measurements may change between two ticks: anything but the
      statuses, the counters and what the racks are made of. */
  predicate SameStatus(b: Battery, c: Battery) {
    b.sw.on == c.sw.on && b.sw.dcContactor == c.sw.dcContactor
    && b.numRacks == c.numRacks && b.numRacksEnabled == c.numRacksEnabled
    && SameRacks(b.sbmu, c.sbmu)
    && forall i | 0 <= i < |b.sbmu| :: c.sbmu[i].dcContactor == b.sbmu[i].dcContactor && c.sbmu[i].enabled == b.sbmu[i].enabled
  }

  predicate SameRacks(racks: seq<Rack>, others: seq<Rack>) {
    |racks| == |others|
    && forall i | 0 <= i < |racks| :: others[i].cap == racks[i].cap && others[i].soc == racks[i].soc
  }

  datatype Turn = Turn(seen: Battery, lowerFault: bool, lowerWarning: bool, power: real, dt: real)

  predicate Fits(t: Turn) {
    t.dt > 0.0 && Linked(t.seen) && Sound(t.seen.sbmu)
  }

  function Moded(t: Turn): Battery {
    UpdateMode(t.seen, t.lowerFault, t.lowerWarning)
  }

  lemma {:induction false} ModeKeepsRacks(b: Battery, n: nat)
    requires n <= |b.sbmu|
    ensures SameRacks(b.sbmu, RackTurns(b, n).sbmu)
    decreases n
  {
    hide RackTurn;
    if n > 0 {
      ModeKeepsRacks(b, n - 1);
      RackTurnKeepsRacks(RackTurns(b, n - 1), n - 1);
    }
  }

  lemma RackTurnKeepsRacks(b: Battery, i: nat)
    requires i < |b.sbmu|
    ensures SameRacks(b.sbmu, RackTurn(b, i).sbmu)
  {
  }

  lemma ModedKeepsRacks(t: Turn)
    ensures SameRacks(t.seen.sbmu, Moded(t).sbmu)
  {
    hide RackTurns, Asked, Monitored, MainContactor, Switched;
    var a := Prepared(t.seen, t.lowerFault, t.lowerWarning);
    ModeKeepsRacks(a, |a.sbmu|);
  }

  lemma {:induction false} SameEnergy(racks: seq<Rack>, others: seq<Rack>)
    requires SameRacks(racks, others)
    ensures Sum(Energy, racks) == Sum(Energy, others)
    ensures Sound(racks) ==> Sound(others)
    decreases |racks|
  {
    if racks != [] {
      var n := |racks| - 1;
      SameEnergy(racks[..n], others[..n]);
      assert Of(Energy, others[n]) == Of(Energy, racks[n]);
    }
  }

  lemma {:induction false} SameCounts(racks: seq<Rack>, others: seq<Rack>)
    requires |racks| == |others|
    requires forall i | 0 <= i < |racks| :: others[i].dcContactor == racks[i].dcContactor && others[i].enabled == racks[i].enabled
    ensures CountClosed(racks) == CountClosed(others) && CountEnabled(racks) == CountEnabled(others)
    decreases |racks|
  {
    if racks != [] {
      SameCounts(racks[..|racks| - 1], others[..|racks| - 1]);
    }
  }

  lemma SeenFits(b: Battery, t: Turn)
    requires Linked(b) && Sound(b.sbmu) && SameStatus(b, t.seen) && t.dt > 0.0
    ensures Fits(t) && Sum(Energy, t.seen.sbmu) == Sum(Energy, b.sbmu)
  {
    hide CountClosed, CountEnabled, Sum, Sound;
    SameCounts(b.sbmu, t.seen.sbmu);
    SameEnergy(b.sbmu, t.seen.sbmu);
  }

  lemma ModedFits(t: Turn)
    requires Fits(t)
    ensures Linked(Moded(t)) && Sound(Moded(t).sbmu)
    ensures Sum(Energy, Moded(t).sbmu) == Sum(Energy, t.seen.sbmu)
    ensures Faulted(Moded(t).alarms) ==> !Moded(t).sw.on
  {
    hide Linked, Sound, Sum, UpdateMode;
    UpdateModeKeepsLinked(t.seen, t.lowerFault, t.lowerWarning);
    ModedKeepsRacks(t);
    SameEnergy(t.seen.sbmu, Moded(t).sbmu);
  }

  /** The battery after a turn. */
  function After(t: Turn): Battery
    requires Fits(t)
  {
    ModedFits(t);
    UpdateState(Moded(t), t.power, t.dt)
  }

  lemma TurnConserves(b: Battery, t: Turn)
    requires Linked(b) && Sound(b.sbmu) && SameStatus(b, t.seen) && t.dt > 0.0
    ensures Fits(t) && Linked(After(t)) && Sound(After(t).sbmu)
    ensures Sum(Energy, After(t).sbmu) == Sum(Energy, b.sbmu) - Kwh(After(t).pdc, t.dt)
    ensures Faulted(After(t).alarms) ==> !After(t).sw.on
  {
    hide Linked, Sound, Sum, UpdateMode, SameStatus, PoweredAll, Rested, Kwh;
    SeenFits(b, t);
    ModedFits(t);
    UpdateConserves(Moded(t), t.power, t.dt);
  }

  /** Turn by turn, each sees the state the one before left, up to commands and readings. */
  predicate IsRun(b: Battery, turns: seq<Turn>)
    requires Linked(b) && Sound(b.sbmu)
    decreases |turns|
  {
    turns != [] ==>
      turns[0].dt > 0.0 && SameStatus(b, turns[0].seen)
      && (TurnConserves(b, turns[0]); IsRun(After(turns[0]), turns[1..]))
  }

  function Last(b: Battery, turns: seq<Turn>): Battery
    requires Linked(b) && Sound(b.sbmu) && IsRun(b, turns)
    decreases |turns|
  {
    if turns == [] then b
    else
      TurnConserves(b, turns[0]);
      Last(After(turns[0]), turns[1..])
  }

  /** The energy drawn from the racks over a run, in kWh. */
  function DrawnOver(b: Battery, turns: seq<Turn>): real
    requires Linked(b) && Sound(b.sbmu) && IsRun(b, turns)
    decreases |turns|
  {
    if turns == [] then 0.0
    else
      TurnConserves(b, turns[0]);
      Kwh(After(turns[0]).pdc, turns[0].dt) + DrawnOver(After(turns[0]), turns[1..])
  }

  /** Conservation over whole runs: whatever is commanded, measured, faulted and drawn, the
      energy stored at the end is the energy stored at the start less what was drawn, every
      charge stays between empty and full, and the machine stays linked. */
  lemma {:induction false} RunConserves(b: Battery, turns: seq<Turn>)
    requires Linked(b) && Sound(b.sbmu) && IsRun(b, turns)
    ensures var last := Last(b, turns);
      Linked(last) && Sound(last.sbmu)
      && Sum(Energy, last.sbmu) == Sum(Energy, b.sbmu) - DrawnOver(b, turns)
    decreases |turns|
  {
    hide Linked, Sound, Sum, SameStatus, After, Kwh;
    if turns != [] {
      TurnConserves(b, turns[0]);
      RunConserves(After(turns[0]), turns[1..]);
    }
  }
}
