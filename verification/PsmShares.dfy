/** How the power asked of a battery is shared among its racks. */
module PsmShares {
  import opened PsmDroop
  import opened PsmBattery
  import opened PsmEnergy

  /** A rack that a powered update leaves neither full nor empty. */
  predicate Partial(r: Rack) {
    0.0 < r.soc < 100.0
  }

  lemma Saturation(r: Rack, share: real, dt: real)
    requires SoundRack(r) && dt > 0.0 && r.dcContactor
    ensures Partial(Powered(r, share, dt)) ==> !Charge(r, share, dt).over && !Charge(r, share, dt).under
  {
    hide Loss;
  }

  lemma PartialRack(r: Rack, share: real, dt: real)
    requires SoundRack(r) && dt > 0.0 && r.dcContactor && Partial(Powered(r, share, dt))
    ensures var s := Powered(r, share, dt);
      s.p == share && s.pdc - s.p == r.idleloss + r.pesr * s.p * s.p
  {
    hide Charge;
    Saturation(r, share, dt);
    Reassociate(r.pesr, share);
  }

  lemma Reassociate(a: real, b: real)
    ensures a * (b * b) == a * b * b
  {
  }

  lemma ShareTimes(power: real, racks: seq<Rack>)
    requires racks != []
    ensures Share(power, racks) * |racks| as real == power
  {
    Cancel(power, |racks| as real);
  }

  /** After a powered update every closed rack that is neither full nor empty delivers the
      power asked of the battery divided by the number of racks, open ones included, and is
      drawn on for its idle and resistive losses on top. An open rack rests. */
  lemma ClosedRackDelivers(b: Battery, power: real, dt: real, i: nat)
    requires Linked(b) && Sound(b.sbmu) && dt > 0.0 && b.sw.on && i < |b.sbmu|
    ensures |UpdateState(b, power, dt).sbmu| == |b.sbmu|
    ensures var s, r := UpdateState(b, power, dt).sbmu[i], b.sbmu[i];
      if !r.dcContactor then s.p == 0.0 && s.pdc == 0.0 && s.soc == r.soc
      else Partial(s) ==>
        s.p * |b.sbmu| as real == power
        && s.pdc - s.p == r.idleloss + r.pesr * s.p * s.p
  {
    hide UpdateState, Powered, Share, Sum, MeanSoc, Linked;
    PoweredUpdate(b, power, dt);
    var share := Share(power, b.sbmu);
    ShareTimes(power, b.sbmu);
    var s, r := UpdateState(b, power, dt).sbmu[i], b.sbmu[i];
    assert s == Powered(r, share, dt);
    PoweredParts(r, share, dt);
    if r.dcContactor && Partial(s) {
      PartialRack(r, share, dt);
    }
  }

  /** One rack's power in n-ths of the power asked. */
  predicate DeliversPart(r: Rack, n: real, power: real) {
    if r.dcContactor then r.p * n == power else r.p == 0.0
  }

  /** A sum of powers that is k n-ths of the power asked. */
  predicate IsPart(sum: real, k: int, n: real, power: real) {
    sum * n == power * k as real
  }

  lemma {:induction false} DeliveredSum(racks: seq<Rack>, n: real, power: real)
    requires forall i | 0 <= i < |racks| :: DeliversPart(racks[i], n, power)
    ensures IsPart(Sum(Delivered, racks), CountClosed(racks), n, power)
    decreases |racks|
  {
    hide DeliversPart, IsPart, Loss, StoredEnergy, Ones;
    NoPart(n, power);
    if racks != [] {
      var m := |racks| - 1;
      DeliveredSum(racks[..m], n, power);
      AddPart(Sum(Delivered, racks[..m]), CountClosed(racks[..m]), racks[m], n, power);
    }
  }

  lemma NoPart(n: real, power: real)
    ensures IsPart(0.0, 0, n, power)
  {
  }

  lemma AddPart(sum: real, k: int, r: Rack, n: real, power: real)
    requires IsPart(sum, k, n, power) && DeliversPart(r, n, power)
    ensures IsPart(sum + r.p, k + Ones(r.dcContactor), n, power)
  {
    assert (sum + r.p) * n == sum * n + r.p * n;
  }

  /** With k of n racks closed and none of them full or empty, the battery delivers k n-ths
      of the power asked; with all of them closed, exactly that power. */
  lemma BatteryDelivers(b: Battery, power: real, dt: real)
    requires Linked(b) && Sound(b.sbmu) && dt > 0.0 && b.sw.on
    requires var a := UpdateState(b, power, dt);
      forall i | 0 <= i < |a.sbmu| :: a.sbmu[i].dcContactor ==> Partial(a.sbmu[i])
    ensures var a := UpdateState(b, power, dt);
      a.p * |b.sbmu| as real == power * b.numRacks as real
      && (b.numRacks == |b.sbmu| ==> a.p == power)
  {
    hide UpdateState, Share, Sum, MeanSoc, Linked, Sound, Partial, PoweredAll, DeliversPart, IsPart, CountClosed;
    var a := UpdateState(b, power, dt);
    PoweredUpdate(b, power, dt);
    UpdateConserves(b, power, dt);
    ClosedStay(b, power, dt);
    forall i | 0 <= i < |a.sbmu| ensures DeliversPart(a.sbmu[i], |b.sbmu| as real, power) {
      RackDeliversPart(b, power, dt, i);
    }
    DeliveredSum(a.sbmu, |b.sbmu| as real, power);
    CountedAfter(b, a);
    WholePart(a.p, b.numRacks, |b.sbmu|, power);
  }

  lemma WholePart(p: real, k: int, n: nat, power: real)
    requires IsPart(p, k, n as real, power) && n > 0
    ensures p * n as real == power * k as real
    ensures k == n ==> p == power
  {
    if k == n {
      AllParts(p, n, power);
    }
  }

  lemma AllParts(p: real, n: nat, power: real)
    requires IsPart(p, n, n as real, power) && n > 0
    ensures p == power
  {
    SameFactor(p, power, n as real);
  }

  lemma RackDeliversPart(b: Battery, power: real, dt: real, i: nat)
    requires Linked(b) && Sound(b.sbmu) && dt > 0.0 && b.sw.on && i < |b.sbmu|
    requires var a := UpdateState(b, power, dt);
      |a.sbmu| == |b.sbmu| && a.sbmu[i].dcContactor == b.sbmu[i].dcContactor
      && (a.sbmu[i].dcContactor ==> Partial(a.sbmu[i]))
    ensures DeliversPart(UpdateState(b, power, dt).sbmu[i], |b.sbmu| as real, power)
  {
    hide UpdateState, Linked, Sound, Partial;
    ClosedRackDelivers(b, power, dt, i);
  }

  lemma ClosedStay(b: Battery, power: real, dt: real)
    requires Linked(b) && Sound(b.sbmu) && dt > 0.0 && b.sw.on
    ensures var a := UpdateState(b, power, dt);
      |a.sbmu| == |b.sbmu| && forall i | 0 <= i < |a.sbmu| :: a.sbmu[i].dcContactor == b.sbmu[i].dcContactor
  {
    hide UpdateState, Share, Sum, MeanSoc, Linked, Powered;
    PoweredUpdate(b, power, dt);
    forall i | 0 <= i < |b.sbmu|
      ensures UpdateState(b, power, dt).sbmu[i].dcContactor == b.sbmu[i].dcContactor
    {
      PoweredParts(b.sbmu[i], Share(power, b.sbmu), dt);
    }
  }

  lemma CountedAfter(b: Battery, a: Battery)
    requires Linked(a) && a.numRacks == b.numRacks
    ensures CountClosed(a.sbmu) == b.numRacks
  {
  }

  lemma SameFactor(x: real, y: real, n: real)
    requires n > 0.0 && x * n == y * n
    ensures x == y
  {
    assert (x - y) * n == 0.0;
  }

  function IdleAndResistive(r: Rack, power: real): real {
    r.idleloss + r.pesr * (power * power)
  }

  /** The charge left by a power and its losses if nothing held it, as a fraction. */
  function LeftBy(r: Rack, power: real, dt: real): real
    requires r.cap != 0.0
  {
    r.soc / 100.0 - (power + IdleAndResistive(r, power)) / r.cap * (dt / 3600.0)
  }

  /** The charge a closed rack ends with: what its share and the losses of that share
      leave, held between empty and full. What a saturated rack delivers follows: it is
      drawn on for exactly its change of charge, less the same losses. */
  predicate ChargedBy(r: Rack, s: Rack, share: real, dt: real)
    requires r.cap != 0.0
  {
    var left := LeftBy(r, share, dt);
    s.soc == (if left > 1.0 then 1.0 else if left < 0.0 then 0.0 else left) * 100.0
    && s.p == s.pdc - IdleAndResistive(r, share)
    && StoredEnergy(s.cap, s.soc) == StoredEnergy(r.cap, r.soc) - Kwh(s.pdc, dt)
  }

  lemma ClosedRackCharge(b: Battery, power: real, dt: real, i: nat)
    requires Linked(b) && Sound(b.sbmu) && dt > 0.0 && b.sw.on && i < |b.sbmu| && b.sbmu[i].dcContactor
    ensures |UpdateState(b, power, dt).sbmu| == |b.sbmu|
    ensures ChargedBy(b.sbmu[i], UpdateState(b, power, dt).sbmu[i], power / |b.sbmu| as real, dt)
  {
    hide UpdateState, Powered, Sum, MeanSoc, Linked, ChargedBy;
    PoweredUpdate(b, power, dt);
    RackCharge(b.sbmu[i], Share(power, b.sbmu), dt);
    assert UpdateState(b, power, dt).sbmu[i] == Powered(b.sbmu[i], Share(power, b.sbmu), dt);
  }

  lemma RackCharge(r: Rack, share: real, dt: real)
    requires SoundRack(r) && dt > 0.0 && r.dcContactor
    ensures ChargedBy(r, Powered(r, share, dt), share, dt)
  {
    hide Powered, StoredEnergy, Kwh, Charge, Loss, IdleAndResistive, LeftBy;
    PoweredParts(r, share, dt);
    RackConserves(r, share, dt);
    ChargeLeft(r, share, dt);
  }

  lemma ChargeLeft(r: Rack, share: real, dt: real)
    requires SoundRack(r) && dt > 0.0
    ensures Loss(r, share) == IdleAndResistive(r, share)
    ensures var left := LeftBy(r, share, dt);
      Charge(r, share, dt).accumulated == if left > 1.0 then 1.0 else if left < 0.0 then 0.0 else left
  {
    hide GetIntegral;
    var drawn, hours := share + Loss(r, share), dt / 3600.0;
    NegatedRate(drawn, r.cap, hours);
    IntegralIs(r.soc / 100.0, -drawn / r.cap, hours, LeftBy(r, share, dt));
  }
}
