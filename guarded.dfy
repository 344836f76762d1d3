/** The calculators of tendanal.py: Imperial inputs are converted to SI
    (inches by 39.37, bbl/min by 5.615/60, cP by 1000), every division that
    could meet a zero is guarded to give 0, and results go back to psi and bbl. */
module Guarded {
  import opened Hydraulics

  /** Imperial diameter (in) to metres: `/ 39.37`. */
  function DiameterToSI(u: UnitSystem, d: real): (r: real)
    ensures u == SI ==> r == d
    ensures u == Imperial ==> r * 39.37 == d
    ensures (r > 0.0 <==> d > 0.0) && (r == 0.0 <==> d == 0.0)
  {
    if u == Imperial then d / 39.37 else d
  }

  /** SI volume (m³) to the displayed unit: `* 6.28981` bbl in Imperial mode. */
  function VolumeToDisplay(u: UnitSystem, v: real): (r: real)
    ensures u == SI ==> r == v
    ensures u == Imperial ==> r == v * 6.28981
    ensures (r > 0.0 <==> v > 0.0) && (r == 0.0 <==> v == 0.0) && (r < 0.0 <==> v < 0.0)
  {
    if u == Imperial then v * 6.28981 else v
  }

  /** SI pressure (Pa) to the displayed unit: `/ 6894.76` psi in Imperial mode. */
  function PressureToDisplay(u: UnitSystem, p: real): (r: real)
    ensures u == SI ==> r == p
    ensures u == Imperial ==> r * 6894.76 == p
    ensures (r >= 0.0 <==> p >= 0.0) && (r == 0.0 <==> p == 0.0)
  {
    if u == Imperial then p / 6894.76 else p
  }

  /** The rebinding of the form's inputs before the pressure-drop formulas:
      length and density are left as typed. */
  function PressureInputToSI(u: UnitSystem, x: PressureDropInput): (s: PressureDropInput)
    ensures s.length == x.length && s.density == x.density
    ensures u == SI ==> s == x
    ensures u == Imperial ==>
      s.flowRate * 60.0 == x.flowRate * 5.615 &&
      s.diameter * 39.37 == x.diameter &&
      s.viscosity * 1000.0 == x.viscosity
    ensures PressureInputNonNegative(x) ==> PressureInputNonNegative(s)
    ensures (s.diameter == 0.0 <==> x.diameter == 0.0) &&
            (s.flowRate == 0.0 <==> x.flowRate == 0.0) &&
            (s.viscosity == 0.0 <==> x.viscosity == 0.0)
  {
    PressureDropInput(x.length, DiameterToSI(u, x.diameter),
                      FlowRateToInternal(u, x.flowRate), x.density,
                      ViscosityToInternal(u, x.viscosity))
  }

  /** `flow_rate / area if area != 0 else 0`. */
  function Velocity(q: real, area: real): (v: real)
    ensures area == 0.0 ==> v == 0.0
    ensures area != 0.0 ==> v * area == q
    ensures q >= 0.0 && area >= 0.0 ==> v >= 0.0
    ensures q == 0.0 ==> v == 0.0
  {
    if area != 0.0 then q / area else 0.0
  }

  /** `(density * velocity * diameter) / viscosity if viscosity != 0 else 0`. */
  function Reynolds(rho: real, v: real, d: real, mu: real): (re: real)
    ensures mu == 0.0 ==> re == 0.0
    ensures mu != 0.0 ==> re * mu == rho * v * d
    ensures rho >= 0.0 && v >= 0.0 && d >= 0.0 && mu >= 0.0 ==> re >= 0.0
    ensures v == 0.0 || d == 0.0 ==> re == 0.0
  {
    if mu != 0.0 then (rho * v * d) / mu else 0.0
  }

  /** Darcy-Weisbach `f * (L / d) * 0.5 * rho * v ** 2 if d != 0 else 0`. */
  function DarcyDrop(f: real, len: real, d: real, rho: real, v: real): (dp: real)
    ensures d == 0.0 || f == 0.0 || v == 0.0 ==> dp == 0.0
    ensures f >= 0.0 && len >= 0.0 && d >= 0.0 && rho >= 0.0 ==> dp >= 0.0
  {
    if d != 0.0 then f * (len / d) * 0.5 * rho * Square(v) else 0.0
  }

  /** The pressure-drop calculator: convert, then area, velocity, Reynolds
      number, friction factor and Darcy-Weisbach drop, then psi if Imperial.
      The Reynolds number is reported as computed, never converted. Zero
      inputs in any denominator give a zero result rather than a fault. */
  function PressureDrop(u: UnitSystem, x: PressureDropInput, root4: real -> real): (r: PressureDropResult)
    requires QuarterPower(root4)
    ensures x.viscosity == 0.0 ==> r == PressureDropResult(0.0, 0.0)
    ensures x.diameter == 0.0 ==> r == PressureDropResult(0.0, 0.0)
    ensures x.flowRate == 0.0 ==> r == PressureDropResult(0.0, 0.0)
    ensures PressureInputNonNegative(x) ==> r.pressureDrop >= 0.0 && r.reynolds >= 0.0
  {
    var s := PressureInputToSI(u, x);
    var v := Velocity(s.flowRate, CircleArea(s.diameter));
    var re := Reynolds(s.density, v, s.diameter, s.viscosity);
    var dp := DarcyDrop(FrictionFactor(re, root4), s.length, s.diameter, s.density, v);
    PressureDropResult(PressureToDisplay(u, dp), re)
  }

  /** Imperial mode is SI mode on the converted inputs, with the drop
      reported in psi and the Reynolds number left alone. */
  lemma ImperialPressureIsConvertedSI(x: PressureDropInput, root4: real -> real)
    requires QuarterPower(root4)
    ensures var si := PressureDrop(SI, PressureInputToSI(Imperial, x), root4);
      PressureDrop(Imperial, x, root4) == PressureDropResult(si.pressureDrop / 6894.76, si.reynolds)
  {
  }

  /** The Reynolds number is rho Q d / (mu A): density times volumetric flow
      times diameter over viscosity times the pipe's cross-section. */
  lemma ReynoldsFromFlow(x: PressureDropInput, root4: real -> real)
    requires QuarterPower(root4)
    requires x.diameter != 0.0 && x.viscosity != 0.0
    ensures PressureDrop(SI, x, root4).reynolds * x.viscosity * CircleArea(x.diameter)
         == x.density * x.flowRate * x.diameter
  {
  }

  /** In the laminar regime (0 < Re < 2300) the Darcy-Weisbach drop with
      f = 64/Re is the Hagen-Poiseuille drop 32 mu L v / d². */
  lemma LaminarIsPoiseuille(len: real, d: real, rho: real, v: real, mu: real, root4: real -> real)
    requires QuarterPower(root4)
    requires d != 0.0 && mu != 0.0
    requires 0.0 < Reynolds(rho, v, d, mu) < 2300.0
    ensures DarcyDrop(FrictionFactor(Reynolds(rho, v, d, mu), root4), len, d, rho, v) * Square(d)
         == 32.0 * mu * len * v
  {
    var re := Reynolds(rho, v, d, mu);
    var f := FrictionFactor(re, root4);
    PoiseuilleAlgebra(DarcyDrop(f, len, d, rho, v), f, re, len, d, rho, v, mu, Square(v), Square(d));
  }

  /** The algebra behind LaminarIsPoiseuille, on plain reals. */
  lemma PoiseuilleAlgebra(dp: real, f: real, re: real, len: real, d: real, rho: real,
                          v: real, mu: real, vv: real, dd: real)
    requires d != 0.0 && mu != 0.0 && re != 0.0
    requires vv == v * v && dd == d * d
    requires f * re == 64.0
    requires re * mu == rho * v * d
    requires dp == f * (len / d) * 0.5 * rho * vv
    ensures dp * dd == 32.0 * mu * len * v
  {
    assert dp * d == f * len * 0.5 * rho * vv;
    assert dp * d * re == 32.0 * len * rho * vv;
    assert dp * d * (re * mu) == 32.0 * mu * len * rho * vv;
    assert (dp * dd) * (rho * v) == (32.0 * mu * len * v) * (rho * v);
    assert rho * v != 0.0;
  }

  /** The sand-fill calculator: annulus area times fill depth, shown in m³
      or bbl, and the mass is the shown volume times the concentration. No
      check that the tubing fits inside the casing. */
  function SandFill(u: UnitSystem, x: SandFillInput): (r: SandFillResult)
    ensures r.mass == r.volume * x.slurryConc
    ensures x.casingId == x.tubingOd ==> r == SandFillResult(0.0, 0.0)
    ensures x.casingId >= 0.0 && x.tubingOd >= 0.0 && x.fillDepth > 0.0 ==>
      (r.volume > 0.0 <==> x.casingId > x.tubingOd) &&
      (r.volume < 0.0 <==> x.casingId < x.tubingOd)
  {
    var c := DiameterToSI(u, x.casingId);
    var t := DiameterToSI(u, x.tubingOd);
    var shown := VolumeToDisplay(u, AnnulusArea(c, t) * x.fillDepth);
    SandFillResult(shown, shown * x.slurryConc)
  }

  /** In SI mode the sand volume is the casing bore's volume less the
      tubing's over the fill depth. */
  lemma SandFillIsBoreLessTubing(x: SandFillInput)
    ensures SandFill(SI, x).volume
         == (CircleArea(x.casingId) - CircleArea(x.tubingOd)) * x.fillDepth
  {
    AnnulusIsDifference(x.casingId, x.tubingOd);
  }

  /** Imperial mode is SI mode on diameters divided by 39.37, with the
      volume shown in barrels. */
  lemma ImperialFillIsConvertedSI(x: SandFillInput)
    ensures var si := SandFill(SI, x.(casingId := x.casingId / 39.37, tubingOd := x.tubingOd / 39.37));
      SandFill(Imperial, x).volume == si.volume * 6.28981
  {
  }

  /** The sand-plug calculator: hole cross-section times plug length, shown
      in m³ or bbl; mass is shown volume times concentration; pumping time is
      shown volume over the (converted) pump rate, or 0 unless the rate is
      positive. No division by 60 in either unit system. */
  function SandPlug(u: UnitSystem, x: SandPlugInput): (r: SandPlugResult)
    ensures r.mass == r.volume * x.slurryConc
    ensures x.pumpRate <= 0.0 ==> r.pumpTime == 0.0
    ensures x.pumpRate > 0.0 ==> r.pumpTime * FlowRateToInternal(u, x.pumpRate) == r.volume
    ensures x.holeDiameter == 0.0 || x.plugLength == 0.0 ==> r == SandPlugResult(0.0, 0.0, 0.0)
    ensures PlugInputNonNegative(x) ==> r.volume >= 0.0 && r.mass >= 0.0 && r.pumpTime >= 0.0
  {
    var d := DiameterToSI(u, x.holeDiameter);
    var q := FlowRateToInternal(u, x.pumpRate);
    var shown := VolumeToDisplay(u, CircleArea(d) * x.plugLength);
    var time := if q > 0.0 then shown / q else 0.0;
    SandPlugResult(shown, shown * x.slurryConc, time)
  }

  /** Imperial mode is SI mode on the converted diameter and rate, with
      volume and pumping time both scaled by 6.28981 bbl per m³. */
  lemma ImperialPlugIsConvertedSI(x: SandPlugInput)
    ensures var si := SandPlug(SI, x.(holeDiameter := x.holeDiameter / 39.37,
                                      pumpRate := x.pumpRate * 5.615 / 60.0));
      var imp := SandPlug(Imperial, x);
      imp.volume == si.volume * 6.28981 && imp.pumpTime == si.pumpTime * 6.28981
  {
  }
}
