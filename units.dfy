// physics/units.py: weight <-> mass at standard gravity. The pint unit
// registry around these helpers carries no arithmetic and is not modelled.

module PhysicsUnits {

  /** Standard gravitational acceleration, m/s^2. */
  const G_STANDARD: real := 9.80665

  /** Weight in newtons of a mass in kilograms at standard gravity. */
  function KgToN(massKg: real): (forceN: real)
    ensures forceN / G_STANDARD == massKg
    ensures massKg > 0.0 ==> forceN > massKg
  {
    massKg * G_STANDARD
  }

  /** Mass in kilograms whose weight at standard gravity is `forceN`. */
  function NToKg(forceN: real): (massKg: real)
    ensures massKg * G_STANDARD == forceN
  {
    forceN / G_STANDARD
  }

  lemma RoundTrip(m: real, f: real)
    ensures NToKg(KgToN(m)) == m
    ensures KgToN(NToKg(f)) == f
  {
  }

  lemma KgToNStrictlyIncreasing(a: real, b: real)
    requires a < b
    ensures KgToN(a) < KgToN(b)
    ensures KgToN(0.0) == 0.0
  {
  }
}
