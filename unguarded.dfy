/** The calculators of app.py: Imperial diameters are taken from inches to
    feet (`/ 12`), volumes from ft³ to bbl (`/ 5.615`) and the drop from
    lb/ft² to psi (`/ 144`). Nothing guards the divisions by area,
    viscosity and diameter: Python raises ZeroDivisionError there, so the
    pressure-drop calculator requires them to be nonzero. */
module Unguarded {
  import opened Hydraulics
  import Guarded

  /** Imperial diameter (in) to feet: `/ 12`. */
  function DiameterToInternal(u: UnitSystem, d: real): (r: real)
    ensures u == SI ==> r == d
    ensures u == Imperial ==> r * 12.0 == d
    ensures (r > 0.0 <==> d > 0.0) && (r == 0.0 <==> d == 0.0)
  {
    if u == Imperial then d / 12.0 else d
  }

  /** Internal volume (ft³ in Imperial mode) to the displayed unit: `/ 5.615` bbl. */
  function VolumeToDisplay(u: UnitSystem, v: real): (r: real)
    ensures u == SI ==> r == v
    ensures u == Imperial ==> r * 5.615 == v
    ensures (r > 0.0 <==> v > 0.0) && (r == 0.0 <==> v == 0.0) && (r < 0.0 <==> v < 0.0)
  {
    if u == Imperial then v / 5.615 else v
  }

  /** Internal pressure to the displayed unit: `/ 144` in Imperial mode. */
  function PressureToDisplay(u: UnitSystem, p: real): (r: real)
    ensures u == SI ==> r == p
    ensures u == Imperial ==> r * 144.0 == p
    ensures (r >= 0.0 <==> p >= 0.0) && (r == 0.0 <==> p == 0.0)
  {
    if u == Imperial then p / 144.0 else p
  }

  /** The rebinding of the form's inputs before the pressure-drop formulas. */
  function PressureInputToInternal(u: UnitSystem, x: PressureDropInput): (s: PressureDropInput)
    ensures s.length == x.length && s.density == x.density
    ensures u == SI ==> s == x
    ensures u == Imperial ==>
      s.flowRate * 60.0 == x.flowRate * 5.615 &&
      s.diameter * 12.0 == x.diameter &&
      s.viscosity * 1000.0 == x.viscosity
    ensures PressureInputNonNegative(x) ==> PressureInputNonNegative(s)
    ensures (s.diameter == 0.0 <==> x.diameter == 0.0) &&
            (s.flowRate == 0.0 <==> x.flowRate == 0.0) &&
            (s.viscosity == 0.0 <==> x.viscosity == 0.0)
  {
    PressureDropInput(x.length, DiameterToInternal(u, x.diameter),
                      FlowRateToInternal(u, x.flowRate), x.density,
                      ViscosityToInternal(u, x.viscosity))
  }

  /** `flow_rate / area`, which faults on a zero area. */
  function Velocity(q: real, area: real): (v: real)
    requires area != 0.0
    ensures v * area == q
    ensures q >= 0.0 && area > 0.0 ==> v >= 0.0
    ensures q > 0.0 && area > 0.0 ==> v > 0.0
  {
    q / area
  }

  /** `density * velocity * diameter / viscosity`, which faults on a zero
      viscosity. */
  function Reynolds(rho: real, v: real, d: real, mu: real): (re: real)
    requires mu != 0.0
    ensures re * mu == rho * v * d
    ensures rho >= 0.0 && v >= 0.0 && d >= 0.0 && mu > 0.0 ==> re >= 0.0
    ensures rho > 0.0 && v > 0.0 && d > 0.0 && mu > 0.0 ==> re > 0.0
    ensures v == 0.0 ==> re == 0.0
  {
    rho * v * d / mu
  }

  /** Darcy-Weisbach `f * (L / d) * 0.5 * rho * v ** 2`, which faults on a
      zero diameter. */
  function DarcyDrop(f: real, len: real, d: real, rho: real, v: real): (dp: real)
    requires d != 0.0
    ensures f == 0.0 || v == 0.0 ==> dp == 0.0
    ensures f >= 0.0 && len >= 0.0 && d > 0.0 && rho >= 0.0 ==> dp >= 0.0
  {
    f * (len / d) * 0.5 * rho * Square(v)
  }

  /** The pressure-drop calculator with its three bare divisions: by the
      area (zero exactly when the diameter is), by the viscosity and by the
      diameter. The friction-factor split is the shared one. */
  function PressureDrop(u: UnitSystem, x: PressureDropInput, root4: real -> real): (r: PressureDropResult)
    requires QuarterPower(root4)
    requires x.diameter != 0.0 && x.viscosity != 0.0
    ensures x.flowRate == 0.0 ==> r == PressureDropResult(0.0, 0.0)
    ensures PressureInputNonNegative(x) ==> r.pressureDrop >= 0.0 && r.reynolds >= 0.0
    ensures PressureInputNonNegative(x) && x.flowRate > 0.0 && x.density > 0.0 ==> r.reynolds > 0.0
  {
    var s := PressureInputToInternal(u, x);
    var v := Velocity(s.flowRate, CircleArea(s.diameter));
    var re := Reynolds(s.density, v, s.diameter, s.viscosity);
    var dp := DarcyDrop(FrictionFactor(re, root4), s.length, s.diameter, s.density, v);
    PressureDropResult(PressureToDisplay(u, dp), re)
  }

  /** Imperial mode is SI mode on the converted inputs with the drop
      divided by 144 and the Reynolds number left alone. */
  lemma ImperialPressureIsConvertedSI(x: PressureDropInput, root4: real -> real)
    requires QuarterPower(root4)
    requires x.diameter != 0.0 && x.viscosity != 0.0
    ensures var si := PressureDrop(SI, PressureInputToInternal(Imperial, x), root4);
      PressureDrop(Imperial, x, root4) == PressureDropResult(si.pressureDrop / 144.0, si.reynolds)
  {
    var s := PressureInputToInternal(Imperial, x);
    assert PressureInputToInternal(SI, s) == s;
  }

  /** Wherever app.py does not fault, its SI pressure drop and Reynolds
      number are those of tendanal.py. */
  lemma PressureDropAgreesInSI(x: PressureDropInput, root4: real -> real)
    requires QuarterPower(root4)
    requires x.diameter != 0.0 && x.viscosity != 0.0
    ensures PressureDrop(SI, x, root4) == Guarded.PressureDrop(SI, x, root4)
  {
    var area := CircleArea(x.diameter);
    var v := Velocity(x.flowRate, area);
    assert Guarded.PressureInputToSI(SI, x) == x && PressureInputToInternal(SI, x) == x;
    assert Guarded.Velocity(x.flowRate, area) == v;
    var re := Reynolds(x.density, v, x.diameter, x.viscosity);
    assert Guarded.Reynolds(x.density, v, x.diameter, x.viscosity) == re;
    var f := FrictionFactor(re, root4);
    assert Guarded.DarcyDrop(f, x.length, x.diameter, x.density, v)
        == DarcyDrop(f, x.length, x.diameter, x.density, v);
  }

  /** The sand-fill calculator: annulus area times depth, shown in m³ or
      bbl, mass is shown volume times concentration. */
  function SandFill(u: UnitSystem, x: SandFillInput): (r: SandFillResult)
    ensures r.mass == r.volume * x.slurryConc
    ensures x.casingId == x.tubingOd ==> r == SandFillResult(0.0, 0.0)
    ensures x.casingId >= 0.0 && x.tubingOd >= 0.0 && x.fillDepth > 0.0 ==>
      (r.volume > 0.0 <==> x.casingId > x.tubingOd) &&
      (r.volume < 0.0 <==> x.casingId < x.tubingOd)
  {
    var c := DiameterToInternal(u, x.casingId);
    var t := DiameterToInternal(u, x.tubingOd);
    var shown := VolumeToDisplay(u, AnnulusArea(c, t) * x.fillDepth);
    SandFillResult(shown, shown * x.slurryConc)
  }

  /** In SI mode the two sand-fill calculators agree. */
  lemma SandFillAgreesInSI(x: SandFillInput)
    ensures SandFill(SI, x) == Guarded.SandFill(SI, x)
  {
  }

  /** In Imperial mode they do not: a 12-inch casing, no tubing and a depth
      and concentration of 1 give about 0.140 bbl here and about 0.459 bbl
      in tendanal.py, because one reads the diameter as feet and the other
      as metres. */
  lemma SandFillDisagreesInImperial()
    ensures SandFill(Imperial, SandFillInput(12.0, 0.0, 1.0, 1.0)).volume
         != Guarded.SandFill(Imperial, SandFillInput(12.0, 0.0, 1.0, 1.0)).volume
  {
  }

  /** For every input the two Imperial sand-fill volumes stand in the fixed
      ratio 39.37² : (144 × 5.615 × 6.28981), so they agree only at zero. */
  lemma SandFillImperialRatio(x: SandFillInput)
    ensures SandFill(Imperial, x).volume * 144.0 * 5.615 * 6.28981
         == Guarded.SandFill(Imperial, x).volume * 39.37 * 39.37
  {
  }

  /** Imperial mode is SI mode on diameters divided by 12 (inches to feet),
      with the volume divided by 5.615 (ft³ to bbl). */
  lemma ImperialFillIsConvertedSI(x: SandFillInput)
    ensures var si := SandFill(SI, x.(casingId := x.casingId / 12.0, tubingOd := x.tubingOd / 12.0));
      SandFill(Imperial, x).volume * 5.615 == si.volume
  {
  }

  /** Imperial mode is SI mode on the diameter divided by 12 and the rate
      converted to ft³/s, with volume and pumping time divided by 5.615. */
  lemma ImperialPlugIsConvertedSI(x: SandPlugInput)
    ensures var si := SandPlug(SI, x.(holeDiameter := x.holeDiameter / 12.0,
                                      pumpRate := x.pumpRate * 5.615 / 60.0));
      var imp := SandPlug(Imperial, x);
      imp.volume * 5.615 == si.volume && imp.pumpTime * 5.615 == si.pumpTime
  {
  }

  /** The sand-plug calculator: hole cross-section times plug length, shown
      in m³ or bbl; pumping time is shown volume over the (converted) pump
      rate and over 60, or 0 unless the rate is positive. */
  function SandPlug(u: UnitSystem, x: SandPlugInput): (r: SandPlugResult)
    ensures r.mass == r.volume * x.slurryConc
    ensures x.pumpRate <= 0.0 ==> r.pumpTime == 0.0
    ensures x.pumpRate > 0.0 ==> r.pumpTime * FlowRateToInternal(u, x.pumpRate) * 60.0 == r.volume
    ensures x.holeDiameter == 0.0 || x.plugLength == 0.0 ==> r == SandPlugResult(0.0, 0.0, 0.0)
    ensures PlugInputNonNegative(x) ==> r.volume >= 0.0 && r.mass >= 0.0 && r.pumpTime >= 0.0
  {
    var d := DiameterToInternal(u, x.holeDiameter);
    var q := FlowRateToInternal(u, x.pumpRate);
    var volume := CircleArea(d) * x.plugLength;
    var shown := VolumeToDisplay(u, volume);
    var time :=
      if q > 0.0 then (if u == Imperial then shown / (q * 60.0) else volume / q / 60.0)
      else 0.0;
    SandPlugResult(shown, shown * x.slurryConc, time)
  }

  /** In SI mode the two sand-plug calculators agree on volume and mass, and
      tendanal.py's pumping time is 60 times this one. */
  lemma SandPlugSixtyFoldInSI(x: SandPlugInput)
    ensures var here, there := SandPlug(SI, x), Guarded.SandPlug(SI, x);
      here.volume == there.volume && here.mass == there.mass &&
      there.pumpTime == 60.0 * here.pumpTime
  {
  }
}
