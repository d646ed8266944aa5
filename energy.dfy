// physics/energy.py: touchdown energy, shock force, stroke ranges and the
// landing load factor. Quantities are SI reals (J, N, m, m/s, kg).

module PhysicsEnergy {
  import opened Wrappers
  import opened Builtins
  import PhysicsUnits

  /** Default shock-absorber efficiency. */
  const DEFAULT_EFFICIENCY: real := 0.80

  /** Vertical kinetic energy at touchdown: one half m v^2. */
  function TouchdownEnergy(landingMassKg: real, sinkRateMps: real): (energyJ: real)
    ensures landingMassKg >= 0.0 ==> energyJ >= 0.0
    ensures landingMassKg > 0.0 && sinkRateMps != 0.0 ==> energyJ > 0.0
  {
    var vSquared := Square(sinkRateMps);
    assert landingMassKg >= 0.0 ==> 0.5 * landingMassKg * vSquared >= 0.0 by {
      if landingMassKg >= 0.0 { MulNonNegative(0.5 * landingMassKg, vSquared); }
    }
    assert landingMassKg > 0.0 && vSquared > 0.0 ==> 0.5 * landingMassKg * vSquared > 0.0 by {
      if landingMassKg > 0.0 && vSquared > 0.0 { MulPositive(0.5 * landingMassKg, vSquared); }
    }
    0.5 * landingMassKg * vSquared
  }

  /** Energy is linear in the mass and quadratic in the sink rate. */
  lemma TouchdownEnergyScaling(m: real, v: real, k: real)
    ensures TouchdownEnergy(k * m, v) == k * TouchdownEnergy(m, v)
    ensures TouchdownEnergy(m, k * v) == k * k * TouchdownEnergy(m, v)
  {
    assert Square(k * v) == (k * k) * Square(v);
  }

  lemma TouchdownEnergyExample()
    ensures TouchdownEnergy(1000.0, 2.0) == 2000.0
  {
  }

  /**
   * Average force that absorbs `energyJ` over the stroke: the force F with
   * F * stroke * efficiency == E. Raises for a non-positive stroke or an
   * efficiency outside [0.5, 1.0].
   */
  function RequiredShockForce(energyJ: real, strokeM: real, efficiency: real): (r: Result<real>)
    ensures r.Err? <==> strokeM <= 0.0 || !(0.5 <= efficiency <= 1.0)
    ensures r.Err? ==> r.error.ValueError?
    ensures r.Ok? ==> r.value * strokeM * efficiency == energyJ
    ensures r.Ok? && energyJ >= 0.0 ==> r.value >= 0.0
  {
    if strokeM <= 0.0 then Err(ValueError("Stroke must be positive"))
    else if !(0.5 <= efficiency <= 1.0) then Err(ValueError("Efficiency should be between 0.5 and 1.0"))
    else Ok(energyJ / (strokeM * efficiency))
  }

  lemma RequiredShockForceExample()
    ensures RequiredShockForce(2000.0, 0.2, DEFAULT_EFFICIENCY) == Ok(12500.0)
  {
  }

  /**
   * Stroke range for a force window: the shortest stroke is the one at which
   * the maximum force absorbs the energy; the longest is the one at which the
   * minimum force does, or twice the shortest when no positive minimum force
   * is given. Raises for a non-positive maximum force; a zero efficiency
   * makes the division fail.
   */
  function StrokeRange(energyJ: real, maxForceN: real, minForceN: Option<real>, efficiency: real)
    : (r: Result<(real, real)>)
    ensures maxForceN <= 0.0 ==> r == Err(ValueError("Max force must be positive"))
    ensures maxForceN > 0.0 && efficiency == 0.0 ==> r == Err(ZeroDivisionError)
    ensures r.Ok? <==> maxForceN > 0.0 && efficiency != 0.0
    ensures r.Ok? ==> r.value.0 * maxForceN * efficiency == energyJ
    ensures r.Ok? && minForceN.Some? && minForceN.value > 0.0 ==>
              r.value.1 * minForceN.value * efficiency == energyJ
    ensures r.Ok? && !(minForceN.Some? && minForceN.value > 0.0) ==> r.value.1 == 2.0 * r.value.0
  {
    if maxForceN <= 0.0 then Err(ValueError("Max force must be positive"))
    else if efficiency == 0.0 then Err(ZeroDivisionError)
    else
      var minStroke := energyJ / (maxForceN * efficiency);
      if minForceN.Some? && minForceN.value > 0.0 then
        Ok((minStroke, energyJ / (minForceN.value * efficiency)))
      else
        Ok((minStroke, minStroke * 2.0))
  }

  /** With a positive energy, the stroke window is ordered when Fmin <= Fmax. */
  lemma StrokeRangeOrdered(energyJ: real, maxForceN: real, minForceN: real, efficiency: real)
    requires energyJ > 0.0 && 0.0 < minForceN <= maxForceN && efficiency > 0.0
    ensures StrokeRange(energyJ, maxForceN, Some(minForceN), efficiency).Ok?
    ensures var w := StrokeRange(energyJ, maxForceN, Some(minForceN), efficiency).value;
            0.0 < w.0 <= w.1
  {
    var w := StrokeRange(energyJ, maxForceN, Some(minForceN), efficiency).value;
    var p, q := minForceN * efficiency, maxForceN * efficiency;
    MulPositive(minForceN, efficiency);
    MulMonotone(minForceN, maxForceN, efficiency);
    assert w.0 == energyJ / q && w.1 == energyJ / p;
    assert w.0 * q == energyJ && w.1 * p == energyJ;
    DivPositive(energyJ, q);
    MulNonNegative(w.0, q - p);
    assert w.0 * q - w.0 * p == w.0 * (q - p);
  }

  /** Empirical stroke band (min, max) by maximum take-off mass. */
  function StrokeBand(mtowKg: real): (band: (real, real))
    ensures 0.10 <= band.0 < band.1 <= 0.40
  {
    if mtowKg < 1500.0 then (0.10, 0.20)
    else if mtowKg < 3000.0 then (0.15, 0.25)
    else if mtowKg < 6000.0 then (0.20, 0.30)
    else (0.25, 0.40)
  }

  /** Stroke multiplier for a runway surface; an unknown surface counts as paved. */
  function StrokeRunwayFactor(runwayType: string): (f: real)
    ensures f >= 1.0
  {
    if runwayType == "paved" then 1.0
    else if runwayType == "grass" then 1.2
    else if runwayType == "gravel" then 1.25
    else 1.0
  }

  /** `sinkFactor` is the square root of `sinkRateMps / 2.0` (baseline 2 m/s). */
  predicate IsSinkFactor(sinkRateMps: real, sinkFactor: real)
  {
    sinkFactor >= 0.0 && sinkFactor * sinkFactor == sinkRateMps / 2.0
  }

  /**
   * Recommended (min, max) stroke: the mass band scaled by the square-root
   * sink factor and the runway factor, then clamped to [0.08, 0.35] and
   * [0.12, 0.50]. The square root is supplied as `sinkFactor`.
   */
  function RecommendStrokeRange(mtowKg: real, sinkRateMps: real, runwayType: string, sinkFactor: real)
    : (r: (real, real))
    ensures 0.08 <= r.0 <= 0.35
    ensures 0.12 <= r.1 <= 0.50
    ensures var raw := StrokeBand(mtowKg).0 * sinkFactor * StrokeRunwayFactor(runwayType);
            0.08 <= raw <= 0.35 ==> r.0 == raw
    ensures var raw := StrokeBand(mtowKg).1 * sinkFactor * StrokeRunwayFactor(runwayType);
            0.12 <= raw <= 0.50 ==> r.1 == raw
  {
    var band := StrokeBand(mtowKg);
    var runwayFactor := StrokeRunwayFactor(runwayType);
    var minStroke := band.0 * sinkFactor * runwayFactor;
    var maxStroke := band.1 * sinkFactor * runwayFactor;
    (Clamp(0.08, minStroke, 0.35), Clamp(0.12, maxStroke, 0.50))
  }

  /** Both ends of the recommended range, as clamped products. */
  lemma RecommendStrokeRangeEnds(mtowKg: real, sinkRateMps: real, runwayType: string, sinkFactor: real)
    ensures RecommendStrokeRange(mtowKg, sinkRateMps, runwayType, sinkFactor).0
         == Clamp(0.08, StrokeBand(mtowKg).0 * sinkFactor * StrokeRunwayFactor(runwayType), 0.35)
    ensures RecommendStrokeRange(mtowKg, sinkRateMps, runwayType, sinkFactor).1
         == Clamp(0.12, StrokeBand(mtowKg).1 * sinkFactor * StrokeRunwayFactor(runwayType), 0.50)
  {
  }

  lemma StrokeBandMonotone(m1: real, m2: real)
    requires m1 <= m2
    ensures StrokeBand(m1).0 <= StrokeBand(m2).0
    ensures StrokeBand(m1).1 <= StrokeBand(m2).1
  {
  }

  /** Heavier aircraft never get a shorter recommended stroke. */
  lemma RecommendStrokeMonotoneInMass(m1: real, m2: real, sinkRateMps: real, runwayType: string, sinkFactor: real)
    requires m1 <= m2
    requires IsSinkFactor(sinkRateMps, sinkFactor)
    ensures RecommendStrokeRange(m1, sinkRateMps, runwayType, sinkFactor).0
         <= RecommendStrokeRange(m2, sinkRateMps, runwayType, sinkFactor).0
    ensures RecommendStrokeRange(m1, sinkRateMps, runwayType, sinkFactor).1
         <= RecommendStrokeRange(m2, sinkRateMps, runwayType, sinkFactor).1
  {
    StrokeBandMonotone(m1, m2);
    RecommendStrokeRangeEnds(m1, sinkRateMps, runwayType, sinkFactor);
    RecommendStrokeRangeEnds(m2, sinkRateMps, runwayType, sinkFactor);
    var rf := StrokeRunwayFactor(runwayType);
    ClampedProductMonotone(0.08, 0.35, StrokeBand(m1).0, sinkFactor, StrokeBand(m2).0, sinkFactor, rf);
    ClampedProductMonotone(0.12, 0.50, StrokeBand(m1).1, sinkFactor, StrokeBand(m2).1, sinkFactor, rf);
  }

  /** The test scenario: 800 kg gets a strictly shorter stroke than 4000 kg (2 m/s, paved). */
  lemma RecommendStrokeLightVersusHeavy()
    ensures RecommendStrokeRange(800.0, 2.0, "paved", 1.0).0 < RecommendStrokeRange(4000.0, 2.0, "paved", 1.0).0
    ensures RecommendStrokeRange(800.0, 2.0, "paved", 1.0).1 < RecommendStrokeRange(4000.0, 2.0, "paved", 1.0).1
  {
  }

  /** A larger sink rate never shortens the recommended stroke. */
  lemma RecommendStrokeMonotoneInSink(mtowKg: real, s1: real, f1: real, s2: real, f2: real, runwayType: string)
    requires s1 <= s2
    requires IsSinkFactor(s1, f1) && IsSinkFactor(s2, f2)
    ensures RecommendStrokeRange(mtowKg, s1, runwayType, f1).0 <= RecommendStrokeRange(mtowKg, s2, runwayType, f2).0
    ensures RecommendStrokeRange(mtowKg, s1, runwayType, f1).1 <= RecommendStrokeRange(mtowKg, s2, runwayType, f2).1
  {
    SquareMonotone(f1, f2);
    RecommendStrokeRangeEnds(mtowKg, s1, runwayType, f1);
    RecommendStrokeRangeEnds(mtowKg, s2, runwayType, f2);
    var band := StrokeBand(mtowKg);
    var rf := StrokeRunwayFactor(runwayType);
    ClampedProductMonotone(0.08, 0.35, band.0, f1, band.0, f2, rf);
    ClampedProductMonotone(0.12, 0.50, band.1, f1, band.1, f2, rf);
  }

  /**
   * Landing load factor n from the energy balance
   * one half m v^2 == m g stroke efficiency (n - 1). A zero stroke or
   * efficiency makes the division fail.
   */
  function LoadFactorFromSink(sinkRateMps: real, strokeM: real, efficiency: real): (r: Result<real>)
    ensures r.Err? <==> strokeM * efficiency == 0.0
    ensures r.Err? ==> r.error == ZeroDivisionError
    ensures r.Ok? ==> (r.value - 1.0) * (2.0 * PhysicsUnits.G_STANDARD * strokeM * efficiency)
                      == Square(sinkRateMps)
    ensures r.Ok? && strokeM * efficiency > 0.0 ==> r.value >= 1.0
    ensures r.Ok? && strokeM * efficiency > 0.0 && sinkRateMps != 0.0 ==> r.value > 1.0
  {
    var denominator := 2.0 * PhysicsUnits.G_STANDARD * strokeM * efficiency;
    assert denominator == 2.0 * PhysicsUnits.G_STANDARD * (strokeM * efficiency);
    if denominator == 0.0 then Err(ZeroDivisionError)
    else
      var vSquared := Square(sinkRateMps);
      assert denominator > 0.0 ==> vSquared / denominator >= 0.0 by {
        if denominator > 0.0 {
          DivNonNegative(vSquared, denominator);
        }
      }
      assert denominator > 0.0 && sinkRateMps != 0.0 ==> vSquared / denominator > 0.0 by {
        if denominator > 0.0 && sinkRateMps != 0.0 {
          DivPositive(vSquared, denominator);
        }
      }
      Ok(vSquared / denominator + 1.0)
  }

  lemma LoadFactorFromSinkExample()
    ensures LoadFactorFromSink(2.0, 0.2, DEFAULT_EFFICIENCY).Ok?
    ensures 2.27 < LoadFactorFromSink(2.0, 0.2, DEFAULT_EFFICIENCY).value < 2.28
  {
  }
}
