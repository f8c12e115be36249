/** The power model: how many watts the rider must deliver to hold a speed
    (in km/h) on a grade, for a given combined mass. Doubles are modelled as
    exact reals. */
module Resistance {

  /** Rolling-resistance coefficient, watts per km/h. */
  const Friction: real := 3.1
  /** Aerodynamic-drag coefficient, watts per (km/h)^3. */
  const Drag: real := 0.0065
  /** Standard gravity in m/s^2. */
  const Gravity: real := 9.81
  /** Kilometres per hour in one metre per second. */
  const KmhPerMps: real := 3.6
  /** The reference mass the design documentation scales friction by. */
  const ReferenceMass: real := 90.0

  /** Power needed to hold `kmh` on grade `slope` with total mass `mass`:
      rolling resistance plus drag plus the climb term. Rolling resistance
      is NOT scaled by mass. */
  function WattKmh(kmh: real, slope: real, mass: real): real
  {
    var resistance := Friction * kmh + Drag * kmh * kmh * kmh;
    var climb := (kmh / KmhPerMps) * slope * mass * Gravity;
    resistance + climb
  }

  /** The variant in the design documentation, whose friction term grows
      with mass relative to `ReferenceMass`. */
  function ScaledWattKmh(kmh: real, slope: real, mass: real): real
  {
    Friction * (mass / ReferenceMass) * kmh + Drag * kmh * kmh * kmh
      + (kmh / KmhPerMps) * slope * mass * Gravity
  }

  /** No speed, no power, whatever the grade and the mass. */
  lemma ZeroAtRest(slope: real, mass: real)
    ensures WattKmh(0.0, slope, mass) == 0.0
  {
  }

  /** On flat ground only rolling resistance and drag remain, so the mass
      has no influence on the required power. */
  lemma FlatIndependentOfMass(kmh: real, m1: real, m2: real)
    ensures WattKmh(kmh, 0.0, m1) == Friction * kmh + Drag * kmh * kmh * kmh
    ensures WattKmh(kmh, 0.0, m1) == WattKmh(kmh, 0.0, m2)
  {
  }

  /** Climb power per km/h of speed on grade `slope` with mass `mass`. */
  function ClimbRate(slope: real, mass: real): real
  {
    slope * mass * Gravity / KmhPerMps
  }

  /** The required power as a polynomial in the speed. */
  lemma WattKmhInSpeed(kmh: real, slope: real, mass: real)
    ensures WattKmh(kmh, slope, mass)
         == Friction * kmh + Drag * (kmh * kmh * kmh) + kmh * ClimbRate(slope, mass)
  {
  }

  lemma CubeMonotone(a: real, b: real)
    requires 0.0 <= a <= b
    ensures a * a * a <= b * b * b
  {
    assert a * a <= a * b <= b * b;
    assert a * a * a <= b * b * a;
    assert b * b * a <= b * b * b;
  }

  lemma ClimbRateNonNegative(slope: real, mass: real)
    requires slope >= 0.0 && mass >= 0.0
    ensures ClimbRate(slope, mass) >= 0.0
  {
    assert slope * mass >= 0.0;
  }

  lemma ScaleMonotone(a: real, b: real, c: real)
    requires a <= b && c >= 0.0
    ensures a * c <= b * c
  {
  }

  /** On a level or uphill grade and for a non-negative mass, the required
      power grows strictly with speed. */
  lemma {:induction false} StrictlyIncreasingInSpeed(k1: real, k2: real, slope: real, mass: real)
    requires 0.0 <= k1 < k2
    requires slope >= 0.0 && mass >= 0.0
    ensures WattKmh(k1, slope, mass) < WattKmh(k2, slope, mass)
  {
    var c := ClimbRate(slope, mass);
    ClimbRateNonNegative(slope, mass);
    CubeMonotone(k1, k2);
    ScaleMonotone(k1, k2, c);
    WattKmhInSpeed(k1, slope, mass);
    WattKmhInSpeed(k2, slope, mass);
    SumMonotone(k1, k2, k1 * k1 * k1, k2 * k2 * k2, k1 * c, k2 * c);
  }

  lemma SumMonotone(k1: real, k2: real, q1: real, q2: real, l1: real, l2: real)
    requires k1 < k2 && q1 <= q2 && l1 <= l2
    ensures Friction * k1 + Drag * q1 + l1 < Friction * k2 + Drag * q2 + l2
  {
  }

  /** The formula as coded and the mass-scaled one agree exactly when the
      mass is the reference mass or the rider stands still. */
  lemma AgreesWithScaledIff(kmh: real, slope: real, mass: real)
    ensures WattKmh(kmh, slope, mass) == ScaledWattKmh(kmh, slope, mass)
        <==> (mass == ReferenceMass || kmh == 0.0)
  {
    var d := WattKmh(kmh, slope, mass) - ScaledWattKmh(kmh, slope, mass);
    assert d == Friction * kmh * (1.0 - mass / ReferenceMass);
    if kmh != 0.0 && mass != ReferenceMass {
      assert 1.0 - mass / ReferenceMass != 0.0;
      assert d != 0.0;
    }
  }

  /** For a moving rider, the required power is negative exactly when the
      grade pulls harder than rolling resistance and drag hold back at that
      speed. */
  lemma NegativeIffSteepDescent(kmh: real, slope: real, mass: real)
    requires kmh > 0.0
    ensures WattKmh(kmh, slope, mass) < 0.0
        <==> slope * mass * Gravity < -(Friction + Drag * kmh * kmh) * KmhPerMps
  {
    WattKmhInSpeed(kmh, slope, mass);
    var bracket := Friction + Drag * kmh * kmh + ClimbRate(slope, mass);
    assert WattKmh(kmh, slope, mass) == kmh * bracket;
    if bracket < 0.0 {
      assert kmh * bracket < 0.0;
    } else {
      assert kmh * bracket >= 0.0;
    }
    assert bracket < 0.0
        <==> slope * mass * Gravity < -(Friction + Drag * kmh * kmh) * KmhPerMps;
  }
}
