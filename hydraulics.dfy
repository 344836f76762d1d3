/** Shared vocabulary of the two hydraulic-fracturing calculator variants:
    the unit-system switch, the input and result records of the three
    calculators, and the formulas both variants spell out identically. */
module Hydraulics {

  /** The page-wide radio button "SI" / "Imperial". */
  datatype UnitSystem = SI | Imperial

  /** Python's math.pi, as it prints. Only its positivity is used in proofs. */
  const Pi: real := 3.141592653589793

  /** What the model assumes of `x ** 0.25`: it is positive for every
      positive base. The real value of the fourth root is not modelled. */
  ghost predicate QuarterPower(root4: real -> real)
  {
    forall x: real :: x > 0.0 ==> root4(x) > 0.0
  }

  /** The pressure-drop form. Roughness and the friction-loss method are
      read by the form but never used, so they are not fields here. */
  datatype PressureDropInput = PressureDropInput(
    length: real, diameter: real, flowRate: real, density: real, viscosity: real)

  /** Pressure drop (Pa, psi or the app's own unit) and the Reynolds number. */
  datatype PressureDropResult = PressureDropResult(pressureDrop: real, reynolds: real)

  datatype SandFillInput = SandFillInput(
    casingId: real, tubingOd: real, fillDepth: real, slurryConc: real)

  /** Sand volume in display units (m³ or bbl) and sand mass. */
  datatype SandFillResult = SandFillResult(volume: real, mass: real)

  datatype SandPlugInput = SandPlugInput(
    holeDiameter: real, plugLength: real, slurryConc: real, pumpRate: real)

  /** Slurry volume in display units, sand mass, and pumping time. */
  datatype SandPlugResult = SandPlugResult(volume: real, mass: real, pumpTime: real)

  /** Every form field is declared with min_value=0.0. */
  predicate PressureInputNonNegative(x: PressureDropInput)
  {
    x.length >= 0.0 && x.diameter >= 0.0 && x.flowRate >= 0.0 &&
    x.density >= 0.0 && x.viscosity >= 0.0
  }

  predicate PlugInputNonNegative(x: SandPlugInput)
  {
    x.holeDiameter >= 0.0 && x.plugLength >= 0.0 && x.slurryConc >= 0.0 && x.pumpRate >= 0.0
  }

  /** Imperial flow rate (bbl/min) to the internal unit: `* 5.615 / 60`. */
  function FlowRateToInternal(u: UnitSystem, q: real): (r: real)
    ensures u == SI ==> r == q
    ensures u == Imperial ==> r * 60.0 == q * 5.615
    ensures (r > 0.0 <==> q > 0.0) && (r == 0.0 <==> q == 0.0)
  {
    if u == Imperial then q * 5.615 / 60.0 else q
  }

  /** Imperial viscosity (cP) to the internal unit: `/ 1000`. */
  function ViscosityToInternal(u: UnitSystem, mu: real): (r: real)
    ensures u == SI ==> r == mu
    ensures u == Imperial ==> r * 1000.0 == mu
    ensures (r > 0.0 <==> mu > 0.0) && (r == 0.0 <==> mu == 0.0)
  {
    if u == Imperial then mu / 1000.0 else mu
  }

  /** Multiplication with its sign rules stated outright; the squares below
      are built on it. */
  function Product(a: real, b: real): (p: real)
    ensures a > 0.0 && b > 0.0 ==> p > 0.0
    ensures a < 0.0 && b < 0.0 ==> p > 0.0
    ensures (a > 0.0 && b < 0.0) || (a < 0.0 && b > 0.0) ==> p < 0.0
    ensures a == 0.0 || b == 0.0 ==> p == 0.0
  {
    a * b
  }

  /** Python's `x ** 2`. */
  function Square(x: real): (s: real)
    ensures s >= 0.0
    ensures s > 0.0 <==> x != 0.0
  {
    Product(x, x)
  }

  /** Cross-section of a pipe or hole: `math.pi * (d / 2) ** 2`. It vanishes
      exactly for a zero diameter, which is what makes the velocity guard
      `area != 0` the same test as `diameter != 0`. */
  function CircleArea(d: real): (a: real)
    ensures a >= 0.0
    ensures a > 0.0 <==> d != 0.0
  {
    Pi * Square(d / 2.0)
  }

  /** Annulus between casing and tubing: `math.pi * (c ** 2 - t ** 2) / 4`,
      with no check that the tubing fits inside the casing. */
  function AnnulusArea(casing: real, tubing: real): (a: real)
    ensures casing >= 0.0 && tubing >= 0.0 ==>
      (a > 0.0 <==> casing > tubing) &&
      (a == 0.0 <==> casing == tubing) &&
      (a < 0.0 <==> casing < tubing)
  {
    SquaresCompare(casing, tubing);
    Pi * (Square(casing) - Square(tubing)) / 4.0
  }

  lemma ProductGrows(c: real, a: real, b: real)
    requires c > 0.0 && a < b
    ensures Product(c, a) < Product(c, b)
  {
    assert Product(c, b) - Product(c, a) == Product(c, b - a);
  }

  /** For non-negative reals, squaring preserves strict order. */
  lemma SquareOrder(x: real, y: real)
    requires 0.0 <= x < y
    ensures Square(x) < Square(y)
  {
    if x > 0.0 {
      ProductGrows(x, x, y);
    }
    ProductGrows(y, x, y);
    assert Product(x, y) == Product(y, x);
  }

  /** For non-negative reals, squares compare the way their bases do. */
  lemma SquaresCompare(x: real, y: real)
    ensures x >= 0.0 && y >= 0.0 ==>
      (x < y ==> Square(x) < Square(y)) && (y < x ==> Square(y) < Square(x))
  {
    if x >= 0.0 && y >= 0.0 {
      if x < y { SquareOrder(x, y); }
      if y < x { SquareOrder(y, x); }
    }
  }

  /** The annulus is what is left of the casing bore once the tubing's
      cross-section is taken out. */
  lemma AnnulusIsDifference(casing: real, tubing: real)
    ensures AnnulusArea(casing, tubing) == CircleArea(casing) - CircleArea(tubing)
  {
  }

  /** A wider pipe never has a smaller cross-section. */
  lemma CircleAreaMonotone(d1: real, d2: real)
    requires 0.0 <= d1 <= d2
    ensures CircleArea(d1) <= CircleArea(d2)
  {
    if d1 < d2 {
      SquareOrder(d1 / 2.0, d2 / 2.0);
    }
  }

  /** Darcy friction factor, split three ways on the Reynolds number:
      no flow, laminar 64/Re below 2300, Blasius 0.079/Re^0.25 from 2300 on. */
  function FrictionFactor(re: real, root4: real -> real): (f: real)
    requires QuarterPower(root4)
    ensures re == 0.0 ==> f == 0.0
    ensures re != 0.0 && re < 2300.0 ==> f * re == 64.0
    ensures re >= 2300.0 ==> f > 0.0 && f * root4(re) == 0.079
    ensures re >= 0.0 ==> f >= 0.0
  {
    if re == 0.0 then 0.0
    else if re < 2300.0 then 64.0 / re
    else 0.079 / root4(re)
  }

  /** The regime boundary belongs to the turbulent side: 2300 takes the
      Blasius branch and 2299.999 the laminar one. */
  lemma FrictionBoundaryIsTurbulent(root4: real -> real)
    requires QuarterPower(root4)
    ensures FrictionFactor(2300.0, root4) * root4(2300.0) == 0.079
    ensures FrictionFactor(2299.999, root4) * 2299.999 == 64.0
  {
  }
}
