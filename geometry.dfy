// physics/geometry.py: empirical sizing heuristics (fuselage length, track,
// wheelbase, strut length, CG height, tire diameter) and the four safety
// checks (tip-back, nose-over, ground clearance, lateral rollover).
// Cube roots, square roots and the arc tangent are supplied by the caller
// and pinned down by predicates where their defining equation is algebraic.

module PhysicsGeometry {
  import opened Wrappers
  import opened Builtins

  /** Outcome of one safety check (its description text is not modelled). */
  datatype SafetyCheckResult = SafetyCheckResult(passed: bool, marginValue: real, requiredMargin: real)

  /** Default fuselage-length scaling factor for traditional GA aircraft. */
  const DEFAULT_K_FACTOR: real := 0.85

  /** `c` is the real cube root `x ** (1/3)` of a non-negative `x`. */
  predicate IsCubeRoot(x: real, c: real)
  {
    c >= 0.0 && c * c * c == x
  }

  /** `s` is the square root `x ** 0.5` of a non-negative `x`. */
  predicate IsSquareRoot(x: real, s: real)
  {
    s >= 0.0 && s * s == x
  }

  lemma CubeMonotone(a: real, b: real)
    requires 0.0 <= a <= b
    ensures a * a * a <= b * b * b
  {
    MulBoundedAbove(a, b, a, b);
    MulNonNegative(a, a);
    MulBoundedAbove(a * a, b * b, a, b);
  }

  /**
   * Fuselage length `k * mtow ** (1/3)`, with the cube root supplied as
   * `cubeRootMtow`: the length is the cube root of `k^3 * mtow`.
   */
  function EstimateFuselageLength(mtowKg: real, kFactor: real, cubeRootMtow: real): (lengthM: real)
    requires IsCubeRoot(mtowKg, cubeRootMtow)
    ensures lengthM * lengthM * lengthM == kFactor * kFactor * kFactor * mtowKg
    ensures kFactor >= 0.0 ==> lengthM >= 0.0
    ensures kFactor > 0.0 && mtowKg > 0.0 ==> lengthM > 0.0
  {
    var lengthM := kFactor * cubeRootMtow;
    assert lengthM * lengthM * lengthM == kFactor * kFactor * kFactor * (cubeRootMtow * cubeRootMtow * cubeRootMtow);
    assert kFactor >= 0.0 ==> lengthM >= 0.0 by {
      if kFactor >= 0.0 { MulNonNegative(kFactor, cubeRootMtow); }
    }
    assert kFactor > 0.0 && mtowKg > 0.0 ==> lengthM > 0.0 by {
      if kFactor > 0.0 && mtowKg > 0.0 {
        assert cubeRootMtow != 0.0;
        MulPositive(kFactor, cubeRootMtow);
      }
    }
    lengthM
  }

  /** Heavier aircraft are estimated strictly longer (positive k). */
  lemma FuselageLengthStrictlyIncreasing(m1: real, c1: real, m2: real, c2: real, kFactor: real)
    requires IsCubeRoot(m1, c1) && IsCubeRoot(m2, c2)
    requires m1 < m2 && kFactor > 0.0
    ensures EstimateFuselageLength(m1, kFactor, c1) < EstimateFuselageLength(m2, kFactor, c2)
  {
    if c2 <= c1 {
      CubeMonotone(c2, c1);
      assert false;
    }
    MulStrictMonotone(c1, c2, kFactor);
  }

  /** 1000 kg has cube root 10, so the default factor gives 8.5 m (inside the 7-10 m band). */
  lemma FuselageLengthExample()
    ensures IsCubeRoot(1000.0, 10.0)
    ensures EstimateFuselageLength(1000.0, DEFAULT_K_FACTOR, 10.0) == 8.5
  {
  }

  /** Track multiplier for a runway surface; an unknown surface counts as paved. */
  function TrackRunwayFactor(runwayType: string): (f: real)
    ensures 1.0 <= f <= 1.20
  {
    if runwayType == "paved" then 1.0
    else if runwayType == "grass" then 1.15
    else if runwayType == "gravel" then 1.20
    else 1.0
  }

  /** Track multiplier for the wing position (low wings need tip clearance). */
  function TrackWingFactor(wingLow: bool): (f: real)
    ensures wingLow <==> f > 1.0
    ensures 1.0 <= f <= 1.10
  {
    if wingLow then 1.10 else 1.0
  }

  /**
   * Track range (min, max): 0.18 and 0.28 of the fuselage length, scaled
   * for runway and wing position; the minimum is raised to 1.5 m and the
   * maximum capped at 6.0 m.
   */
  function TrackRange(fuselageLengthM: real, runwayType: string, wingLow: bool): (r: (real, real))
    ensures r.0 >= 1.5 && r.1 <= 6.0
    ensures var raw := fuselageLengthM * 0.18 * TrackRunwayFactor(runwayType) * TrackWingFactor(wingLow);
            r.0 == (if raw >= 1.5 then raw else 1.5)
    ensures var raw := fuselageLengthM * 0.28 * TrackRunwayFactor(runwayType) * TrackWingFactor(wingLow);
            r.1 == (if raw <= 6.0 then raw else 6.0)
  {
    var runwayFactor := TrackRunwayFactor(runwayType);
    var wingFactor := TrackWingFactor(wingLow);
    var minTrack := fuselageLengthM * 0.18 * runwayFactor * wingFactor;
    var maxTrack := fuselageLengthM * 0.28 * runwayFactor * wingFactor;
    (Max(1.5, minTrack), Min(6.0, maxTrack))
  }

  /** A track scaled by factor `f` grows with the factor for a non-negative length. */
  lemma ScaledTrackMonotone(lengthM: real, ratio: real, f1: real, w1: real, f2: real, w2: real)
    requires lengthM >= 0.0 && ratio >= 0.0
    requires 0.0 <= f1 <= f2 && 0.0 <= w1 <= w2
    ensures lengthM * ratio * f1 * w1 <= lengthM * ratio * f2 * w2
  {
    var base := lengthM * ratio;
    MulNonNegative(lengthM, ratio);
    MulMonotone(f1, f2, base);
    MulNonNegative(base, f1);
    MulNonNegative(base, f2);
    MulMonotone(w1, w2, base * f2);
    MulMonotone(base * f1, base * f2, w1);
  }

  /** Grass and gravel never get a narrower track range than paved. */
  lemma TrackSoftFieldNotNarrower(fuselageLengthM: real, runwayType: string, wingLow: bool)
    requires fuselageLengthM >= 0.0
    ensures TrackRange(fuselageLengthM, "paved", wingLow).0 <= TrackRange(fuselageLengthM, runwayType, wingLow).0
    ensures TrackRange(fuselageLengthM, "paved", wingLow).1 <= TrackRange(fuselageLengthM, runwayType, wingLow).1
  {
    var w := TrackWingFactor(wingLow);
    ScaledTrackMonotone(fuselageLengthM, 0.18, 1.0, w, TrackRunwayFactor(runwayType), w);
    ScaledTrackMonotone(fuselageLengthM, 0.28, 1.0, w, TrackRunwayFactor(runwayType), w);
  }

  /** A low wing never gets a narrower track range than a high wing. */
  lemma TrackLowWingNotNarrower(fuselageLengthM: real, runwayType: string)
    requires fuselageLengthM >= 0.0
    ensures TrackRange(fuselageLengthM, runwayType, false).0 <= TrackRange(fuselageLengthM, runwayType, true).0
    ensures TrackRange(fuselageLengthM, runwayType, false).1 <= TrackRange(fuselageLengthM, runwayType, true).1
  {
    var f := TrackRunwayFactor(runwayType);
    ScaledTrackMonotone(fuselageLengthM, 0.18, f, 1.0, f, 1.10);
    ScaledTrackMonotone(fuselageLengthM, 0.28, f, 1.0, f, 1.10);
  }

  /** The test scenario: a 9 m paved high-wing fuselage gets 1.62-2.52 m. */
  lemma TrackRangeExample()
    ensures TrackRange(9.0, "paved", false) == (1.62, 2.52)
  {
  }

  /**
   * Wheelbase range (min, max): 0.55-0.75 of the fuselage length clamped to
   * [4.0, 10.0] for "taildragger", and 0.25-0.38 clamped to [2.0, 6.0] for
   * any other configuration string.
   */
  function WheelbaseRange(fuselageLengthM: real, config: string): (r: (real, real))
    ensures config == "taildragger" ==> r.0 >= 4.0 && r.1 <= 10.0
    ensures config != "taildragger" ==> r.0 >= 2.0 && r.1 <= 6.0
    ensures config == "taildragger" ==>
              r.0 >= fuselageLengthM * 0.55 && (r.0 == 4.0 || r.0 == fuselageLengthM * 0.55) &&
              r.1 <= fuselageLengthM * 0.75 && (r.1 == 10.0 || r.1 == fuselageLengthM * 0.75)
    ensures config != "taildragger" ==>
              r.0 >= fuselageLengthM * 0.25 && (r.0 == 2.0 || r.0 == fuselageLengthM * 0.25) &&
              r.1 <= fuselageLengthM * 0.38 && (r.1 == 6.0 || r.1 == fuselageLengthM * 0.38)
  {
    var (minRatio, maxRatio) := if config == "taildragger" then (0.55, 0.75) else (0.25, 0.38);
    var minWheelbase := fuselageLengthM * minRatio;
    var maxWheelbase := fuselageLengthM * maxRatio;
    if config == "taildragger" then (Max(4.0, minWheelbase), Min(10.0, maxWheelbase))
    else (Max(2.0, minWheelbase), Min(6.0, maxWheelbase))
  }

  /** For every fuselage length, the shortest taildragger wheelbase exceeds the longest tricycle one. */
  lemma TaildraggerWheelbaseExceedsTricycle(fuselageLengthM: real)
    ensures WheelbaseRange(fuselageLengthM, "tricycle").1 < WheelbaseRange(fuselageLengthM, "taildragger").0
  {
    var tri := WheelbaseRange(fuselageLengthM, "tricycle");
    var tail := WheelbaseRange(fuselageLengthM, "taildragger");
    if fuselageLengthM <= 10.0 {
      assert tri.1 <= fuselageLengthM * 0.38 <= 3.8;
    } else {
      assert tri.1 <= fuselageLengthM * 0.38 < fuselageLengthM * 0.55 <= tail.0;
    }
  }

  /** Empirical main-strut band (min, max) by maximum take-off mass. */
  function StrutBand(mtowKg: real): (band: (real, real))
    ensures 0.30 <= band.0 < band.1 <= 0.90
  {
    if mtowKg < 1000.0 then (0.30, 0.45)
    else if mtowKg < 1500.0 then (0.35, 0.55)
    else if mtowKg < 2500.0 then (0.45, 0.65)
    else if mtowKg < 4000.0 then (0.50, 0.75)
    else (0.60, 0.90)
  }

  lemma StrutBandMonotone(m1: real, m2: real)
    requires m1 <= m2
    ensures StrutBand(m1).0 <= StrutBand(m2).0
    ensures StrutBand(m1).1 <= StrutBand(m2).1
  {
  }

  /**
   * Strut length range (min, max): the mass band; a nose or tail strut
   * takes 75% of the minimum and 85% of the maximum; a main strut with a
   * positive propeller clearance is at least 0.15 m (min) and 0.30 m (max)
   * longer than that clearance.
   */
  function StrutLengthRange(mtowKg: real, propClearanceM: real, isMainGear: bool): (r: (real, real))
    ensures !isMainGear ==> r == (StrutBand(mtowKg).0 * 0.75, StrutBand(mtowKg).1 * 0.85)
    ensures isMainGear && propClearanceM <= 0.0 ==> r == StrutBand(mtowKg)
    ensures isMainGear && propClearanceM > 0.0 ==>
              r.0 >= StrutBand(mtowKg).0 && r.0 >= propClearanceM + 0.15 &&
              (r.0 == StrutBand(mtowKg).0 || r.0 == propClearanceM + 0.15)
    ensures isMainGear && propClearanceM > 0.0 ==>
              r.1 >= StrutBand(mtowKg).1 && r.1 >= propClearanceM + 0.30 &&
              (r.1 == StrutBand(mtowKg).1 || r.1 == propClearanceM + 0.30)
    ensures 0.0 < r.0 < r.1
  {
    var band := StrutBand(mtowKg);
    var (baseMin, baseMax) := if !isMainGear then (band.0 * 0.75, band.1 * 0.85) else band;
    if isMainGear && propClearanceM > 0.0 then
      (Max(baseMin, propClearanceM + 0.15), Max(baseMax, propClearanceM + 0.30))
    else
      (baseMin, baseMax)
  }

  /** A heavier aircraft never gets a shorter strut range, main or nose. */
  lemma StrutLengthMonotoneInMass(m1: real, m2: real, propClearanceM: real, isMainGear: bool)
    requires m1 <= m2
    ensures StrutLengthRange(m1, propClearanceM, isMainGear).0 <= StrutLengthRange(m2, propClearanceM, isMainGear).0
    ensures StrutLengthRange(m1, propClearanceM, isMainGear).1 <= StrutLengthRange(m2, propClearanceM, isMainGear).1
  {
    StrutBandMonotone(m1, m2);
  }

  /** A propeller clearance never shortens the main strut range. */
  lemma StrutPropClearanceNeverShortens(mtowKg: real, propClearanceM: real)
    ensures StrutLengthRange(mtowKg, 0.0, true).0 <= StrutLengthRange(mtowKg, propClearanceM, true).0
    ensures StrutLengthRange(mtowKg, 0.0, true).1 <= StrutLengthRange(mtowKg, propClearanceM, true).1
  {
  }

  /** The nose or tail strut range lies strictly below the main strut range. */
  lemma NoseStrutShorterThanMain(mtowKg: real, propClearanceM: real)
    ensures StrutLengthRange(mtowKg, 0.0, false).0 < StrutLengthRange(mtowKg, propClearanceM, true).0
    ensures StrutLengthRange(mtowKg, 0.0, false).1 < StrutLengthRange(mtowKg, propClearanceM, true).1
  {
  }

  /**
   * CG height above ground: 0.8 + 0.15 * sqrt(mtow / 1000), times 1.1 for a
   * low wing and 0.95 otherwise, clamped to [0.8, 2.5]. The square root is
   * supplied as `sqrtMassRatio`.
   */
  function EstimateCgHeight(mtowKg: real, wingLow: bool, sqrtMassRatio: real): (h: real)
    requires IsSquareRoot(mtowKg / 1000.0, sqrtMassRatio)
    ensures 0.8 <= h <= 2.5
    ensures var raw := (0.8 + 0.15 * sqrtMassRatio) * (if wingLow then 1.1 else 0.95);
            && (0.8 <= raw <= 2.5 ==> h == raw)
            && (raw < 0.8 ==> h == 0.8)
            && (raw > 2.5 ==> h == 2.5)
  {
    var baseHeight := 0.8 + 0.15 * sqrtMassRatio;
    var adjusted := if wingLow then baseHeight * 1.1 else baseHeight * 0.95;
    Max(0.8, Min(2.5, adjusted))
  }

  /** A heavier aircraft never gets a lower CG estimate. */
  lemma CgHeightMonotoneInMass(m1: real, s1: real, m2: real, s2: real, wingLow: bool)
    requires IsSquareRoot(m1 / 1000.0, s1) && IsSquareRoot(m2 / 1000.0, s2)
    requires m1 <= m2
    ensures EstimateCgHeight(m1, wingLow, s1) <= EstimateCgHeight(m2, wingLow, s2)
  {
    SquareMonotone(s1, s2);
    var f := if wingLow then 1.1 else 0.95;
    ClampMonotone(0.8, (0.8 + 0.15 * s1) * f, (0.8 + 0.15 * s2) * f, 2.5);
  }

  /** A low wing never lowers the CG estimate. */
  lemma CgHeightLowWingNotLower(mtowKg: real, s: real)
    requires IsSquareRoot(mtowKg / 1000.0, s)
    ensures EstimateCgHeight(mtowKg, false, s) <= EstimateCgHeight(mtowKg, true, s)
  {
    ClampMonotone(0.8, (0.8 + 0.15 * s) * 0.95, (0.8 + 0.15 * s) * 1.1, 2.5);
  }

  /** The test scenario: 1000 kg, high wing gives 0.9025 m, within 0.8-1.5 m. */
  lemma CgHeightExample()
    ensures IsSquareRoot(1000.0 / 1000.0, 1.0)
    ensures EstimateCgHeight(1000.0, false, 1.0) == 0.9025
  {
  }

  /**
   * Tip-back check: the aft CG must sit ahead of the main gear by at least
   * `minMarginRatio` of the wheelbase. The margin is
   * (xMain - xCgAft) / wheelbase, or 0 for a non-positive wheelbase.
   */
  function CheckTipBackMargin(xCgAft: real, xMain: real, wheelbase: real, cgHeight: real, minMarginRatio: real)
    : (r: SafetyCheckResult)
    ensures r.requiredMargin == minMarginRatio
    ensures wheelbase > 0.0 ==> r.marginValue * wheelbase == xMain - xCgAft
    ensures wheelbase <= 0.0 ==> r.marginValue == 0.0
    ensures r.passed <==> r.marginValue >= minMarginRatio
  {
    var cgToMain := xMain - xCgAft;
    var margin := if wheelbase > 0.0 then cgToMain / wheelbase else 0.0;
    SafetyCheckResult(margin >= minMarginRatio, margin, minMarginRatio)
  }

  /** With a positive wheelbase the check passes exactly when the CG is ahead by the margin distance. */
  lemma TipBackPassesIffDistance(xCgAft: real, xMain: real, wheelbase: real, cgHeight: real, minMarginRatio: real)
    requires wheelbase > 0.0
    ensures CheckTipBackMargin(xCgAft, xMain, wheelbase, cgHeight, minMarginRatio).passed
            <==> xMain - xCgAft >= minMarginRatio * wheelbase
  {
    var r := CheckTipBackMargin(xCgAft, xMain, wheelbase, cgHeight, minMarginRatio);
    if r.marginValue >= minMarginRatio {
      MulMonotone(minMarginRatio, r.marginValue, wheelbase);
    } else {
      MulStrictMonotone(r.marginValue, minMarginRatio, wheelbase);
    }
  }

  /** The two test scenarios: 0.20 m ahead on a 2 m wheelbase passes 10%, 0.05 m does not. */
  lemma TipBackExamples()
    ensures CheckTipBackMargin(2.3, 2.5, 2.0, 1.2, 0.10).passed
    ensures !CheckTipBackMargin(2.45, 2.5, 2.0, 1.2, 0.10).passed
  {
    TipBackPassesIffDistance(2.3, 2.5, 2.0, 1.2, 0.10);
    TipBackPassesIffDistance(2.45, 2.5, 2.0, 1.2, 0.10);
  }

  /** Default braking deceleration (in g) and nose-over margin of the check. */
  const DEFAULT_BRAKING_DECEL_G: real := 0.4
  const DEFAULT_NOSE_OVER_MARGIN: real := 0.08

  /**
   * Nose-over check under braking: the forward CG must sit behind the nose
   * gear by the critical arm `brakingDecelG * cgHeight` plus the margin.
   * The reported margin is (available - critical) / available when the CG is
   * aft of the nose gear, else 0. `xMain` is accepted but unused.
   */
  function CheckNoseOverMargin(xCgFwd: real, xMain: real, xNose: real, cgHeight: real,
                               brakingDecelG: real, minMarginRatio: real): (r: SafetyCheckResult)
    ensures r.requiredMargin == minMarginRatio
    ensures r.passed <==> xCgFwd - xNose >= brakingDecelG * cgHeight * (1.0 + minMarginRatio)
    ensures xCgFwd - xNose > 0.0 ==>
              r.marginValue * (xCgFwd - xNose) == (xCgFwd - xNose) - brakingDecelG * cgHeight
    ensures xCgFwd - xNose <= 0.0 ==> r.marginValue == 0.0
  {
    var cgToNose := xCgFwd - xNose;
    var criticalDistance := brakingDecelG * cgHeight;
    var available := cgToNose;
    var required := criticalDistance * (1.0 + minMarginRatio);
    var marginRatio := if cgToNose > 0.0 then (available - criticalDistance) / cgToNose else 0.0;
    SafetyCheckResult(available >= required, marginRatio, minMarginRatio)
  }

  /** A passing nose-over check with non-negative inputs reports a non-negative margin. */
  lemma NoseOverPassHasNonNegativeMargin(xCgFwd: real, xMain: real, xNose: real, cgHeight: real,
                                         brakingDecelG: real, minMarginRatio: real)
    requires cgHeight >= 0.0 && brakingDecelG >= 0.0 && minMarginRatio >= 0.0
    requires CheckNoseOverMargin(xCgFwd, xMain, xNose, cgHeight, brakingDecelG, minMarginRatio).passed
    ensures CheckNoseOverMargin(xCgFwd, xMain, xNose, cgHeight, brakingDecelG, minMarginRatio).marginValue >= 0.0
  {
    var critical := brakingDecelG * cgHeight;
    MulNonNegative(brakingDecelG, cgHeight);
    MulNonNegative(critical, minMarginRatio);
    assert critical * (1.0 + minMarginRatio) == critical + critical * minMarginRatio;
    var cgToNose := xCgFwd - xNose;
    if cgToNose > 0.0 {
      DivNonNegative(cgToNose - critical, cgToNose);
    }
  }

  /** A check that passes under harder braking also passes under softer braking. */
  lemma NoseOverMonotoneInBraking(xCgFwd: real, xMain: real, xNose: real, cgHeight: real,
                                  b1: real, b2: real, minMarginRatio: real)
    requires cgHeight >= 0.0 && minMarginRatio >= -1.0 && b1 <= b2
    requires CheckNoseOverMargin(xCgFwd, xMain, xNose, cgHeight, b2, minMarginRatio).passed
    ensures CheckNoseOverMargin(xCgFwd, xMain, xNose, cgHeight, b1, minMarginRatio).passed
  {
    ScaleMonotone(1.0, b1, b2, cgHeight);
    MulMonotone(b1 * cgHeight, b2 * cgHeight, 1.0 + minMarginRatio);
  }

  /** The test scenario: CG 1.5 m behind the nose gear, 1.2 m high, 0.4 g braking passes with margin 0.68. */
  lemma NoseOverExample()
    ensures CheckNoseOverMargin(2.0, 2.5, 0.5, 1.2, DEFAULT_BRAKING_DECEL_G, DEFAULT_NOSE_OVER_MARGIN)
            == SafetyCheckResult(true, 0.68, 0.08)
  {
  }

  /** Default fraction of the stroke used under static weight. */
  const DEFAULT_STATIC_DEFLECTION_FRACTION: real := 0.3

  /**
   * Ground-clearance check: the static attachment height
   * strut + tire radius - stroke * deflection fraction must reach the
   * required propeller clearance. The reported value is the margin as a
   * fraction of that height (0 for a non-positive height); the limit is 0.
   */
  function CheckGroundClearance(strutLengthM: real, strokeM: real, tireRadiusM: real,
                                propClearanceRequiredM: real, staticDeflectionFraction: real)
    : (r: SafetyCheckResult)
    ensures r.requiredMargin == 0.0
    ensures r.passed <==> strutLengthM + tireRadiusM - strokeM * staticDeflectionFraction >= propClearanceRequiredM
    ensures var height := strutLengthM + tireRadiusM - strokeM * staticDeflectionFraction;
            height > 0.0 ==> r.marginValue * height == height - propClearanceRequiredM
    ensures var height := strutLengthM + tireRadiusM - strokeM * staticDeflectionFraction;
            height <= 0.0 ==> r.marginValue == 0.0
  {
    var staticDeflection := strokeM * staticDeflectionFraction;
    var groundHeight := strutLengthM + tireRadiusM - staticDeflection;
    var margin := groundHeight - propClearanceRequiredM;
    var marginRatio := if groundHeight > 0.0 then margin / groundHeight else 0.0;
    SafetyCheckResult(margin >= 0.0, marginRatio, 0.0)
  }

  /** A longer strut or a larger tire never turns a passing clearance check into a failing one. */
  lemma GroundClearanceMonotone(strut1: real, strut2: real, radius1: real, radius2: real, strokeM: real,
                                propClearanceRequiredM: real, staticDeflectionFraction: real)
    requires strut1 <= strut2 && radius1 <= radius2
    requires CheckGroundClearance(strut1, strokeM, radius1, propClearanceRequiredM, staticDeflectionFraction).passed
    ensures CheckGroundClearance(strut2, strokeM, radius2, propClearanceRequiredM, staticDeflectionFraction).passed
  {
  }

  /** The test scenario: 0.5 m strut, 0.2 m stroke, 0.2 m radius clears 0.25 m (height 0.64 m). */
  lemma GroundClearanceExample()
    ensures CheckGroundClearance(0.5, 0.2, 0.2, 0.25, DEFAULT_STATIC_DEFLECTION_FRACTION).passed
    ensures CheckGroundClearance(0.5, 0.2, 0.2, 0.25, DEFAULT_STATIC_DEFLECTION_FRACTION).marginValue * 0.64 == 0.39
  {
  }

  /** Default minimum rollover angle in degrees. */
  const DEFAULT_MIN_ROLLOVER_ANGLE_DEG: real := 25.0

  /**
   * Lateral rollover check: the rollover angle atan2(track / 2, cgHeight),
   * in degrees, supplied as `rolloverAngleDeg`, must reach the minimum; the
   * reported value is the angle itself.
   */
  function CheckLateralRollover(trackM: real, cgHeightM: real, rolloverAngleDeg: real,
                                minRolloverAngleDeg: real): (r: SafetyCheckResult)
    ensures r.passed <==> r.marginValue >= r.requiredMargin
    ensures r.marginValue == rolloverAngleDeg && r.requiredMargin == minRolloverAngleDeg
  {
    SafetyCheckResult(rolloverAngleDeg >= minRolloverAngleDeg, rolloverAngleDeg, minRolloverAngleDeg)
  }

  /** Raising the minimum angle never turns a failing rollover check into a passing one. */
  lemma LateralRolloverStricterMinimum(trackM: real, cgHeightM: real, angle: real, min1: real, min2: real)
    requires min1 <= min2
    requires CheckLateralRollover(trackM, cgHeightM, angle, min2).passed
    ensures CheckLateralRollover(trackM, cgHeightM, angle, min1).passed
  {
  }

  /** Empirical tire-diameter band (min, max) by static load per tire. */
  function TireDiameterBand(loadPerTireN: real): (band: (real, real))
    ensures 0.25 <= band.0 < band.1 <= 0.75
  {
    if loadPerTireN < 3000.0 then (0.25, 0.35)
    else if loadPerTireN < 5000.0 then (0.30, 0.40)
    else if loadPerTireN < 10000.0 then (0.35, 0.50)
    else if loadPerTireN < 20000.0 then (0.45, 0.60)
    else (0.55, 0.75)
  }

  lemma TireDiameterBandMonotone(l1: real, l2: real)
    requires l1 <= l2
    ensures TireDiameterBand(l1).0 <= TireDiameterBand(l2).0
    ensures TireDiameterBand(l1).1 <= TireDiameterBand(l2).1
  {
  }

  /** Tire multiplier for a runway surface; an unknown surface counts as paved. */
  function TireRunwayFactor(runwayType: string): (f: real)
    ensures 1.0 <= f <= 1.20
  {
    if runwayType == "paved" then 1.0
    else if runwayType == "grass" then 1.20
    else if runwayType == "gravel" then 1.15
    else 1.0
  }

  /** Tire multiplier for a pressure limit: below 200 kPa x1.25, below 350 kPa x1.10. */
  function TirePressureFactor(tirePressureLimitKpa: Option<real>): (f: real)
    ensures 1.0 <= f <= 1.25
    ensures tirePressureLimitKpa.None? ==> f == 1.0
  {
    match tirePressureLimitKpa
    case None => 1.0
    case Some(p) => if p < 200.0 then 1.25 else if p < 350.0 then 1.10 else 1.0
  }

  /** The runway table: grass 1.20, gravel 1.15, paved and any other surface 1.0. */
  lemma TireRunwayFactorTable(runwayType: string)
    ensures TireRunwayFactor("paved") == 1.0
    ensures TireRunwayFactor("grass") == 1.20
    ensures TireRunwayFactor("gravel") == 1.15
    ensures runwayType != "grass" && runwayType != "gravel" ==> TireRunwayFactor(runwayType) == 1.0
    ensures TireRunwayFactor("paved") <= TireRunwayFactor(runwayType)
    ensures TireRunwayFactor("gravel") <= TireRunwayFactor("grass")
  {
  }

  /** A lower pressure limit never calls for a smaller tire. */
  lemma TirePressureFactorAntitone(p1: real, p2: real)
    requires p1 <= p2
    ensures TirePressureFactor(Some(p2)) <= TirePressureFactor(Some(p1))
    ensures TirePressureFactor(None) <= TirePressureFactor(Some(p1))
  {
  }

  /** The combined tire factor lies between 1 and 1.5. */
  lemma FactorBounds(runwayFactor: real, pressureFactor: real)
    requires 1.0 <= runwayFactor <= 1.20 && 1.0 <= pressureFactor <= 1.25
    ensures 1.0 <= runwayFactor * pressureFactor <= 1.5
  {
    MulAtLeast(runwayFactor, pressureFactor);
    MulBoundedAbove(runwayFactor, 1.20, pressureFactor, 1.25);
  }

  /** Scaling a band by two factors in [1, 1.2] and [1, 1.25] widens it by at most half, keeping its order. */
  lemma ScaledBand(lo: real, hi: real, runwayFactor: real, pressureFactor: real)
    requires 0.25 <= lo < hi
    requires 1.0 <= runwayFactor <= 1.20 && 1.0 <= pressureFactor <= 1.25
    ensures var f := runwayFactor * pressureFactor;
            && lo <= lo * f <= 1.5 * lo
            && hi <= hi * f <= 1.5 * hi
            && lo * f < hi * f
  {
    var f := runwayFactor * pressureFactor;
    FactorBounds(runwayFactor, pressureFactor);
    MulMonotone(1.0, f, lo);
    MulMonotone(f, 1.5, lo);
    MulMonotone(1.0, f, hi);
    MulMonotone(f, 1.5, hi);
    MulStrictMonotone(lo, hi, f);
  }

  /**
   * Tire diameter range: the load band scaled by the runway factor times
   * the pressure factor. It is always a proper interval, never narrower
   * than the band and at most half again as large; a paved runway with no
   * pressure limit gets the band itself.
   */
  function EstimateTireDiameter(loadPerTireN: real, runwayType: string, tirePressureLimitKpa: Option<real>)
    : (r: (real, real))
    ensures r.0 == TireDiameterBand(loadPerTireN).0 * (TireRunwayFactor(runwayType) * TirePressureFactor(tirePressureLimitKpa))
    ensures r.1 == TireDiameterBand(loadPerTireN).1 * (TireRunwayFactor(runwayType) * TirePressureFactor(tirePressureLimitKpa))
    ensures 0.25 <= r.0 < r.1
    ensures TireDiameterBand(loadPerTireN).0 <= r.0 <= 1.5 * TireDiameterBand(loadPerTireN).0
    ensures TireDiameterBand(loadPerTireN).1 <= r.1 <= 1.5 * TireDiameterBand(loadPerTireN).1
    ensures runwayType == "paved" && tirePressureLimitKpa.None?
            ==> r.0 == TireDiameterBand(loadPerTireN).0 && r.1 == TireDiameterBand(loadPerTireN).1
  {
    ScaledBand(TireDiameterBand(loadPerTireN).0, TireDiameterBand(loadPerTireN).1,
               TireRunwayFactor(runwayType), TirePressureFactor(tirePressureLimitKpa));
    (TireDiameterBand(loadPerTireN).0 * (TireRunwayFactor(runwayType) * TirePressureFactor(tirePressureLimitKpa)),
     TireDiameterBand(loadPerTireN).1 * (TireRunwayFactor(runwayType) * TirePressureFactor(tirePressureLimitKpa)))
  }

  /** A heavier load per tire never gets a smaller diameter range. */
  lemma TireDiameterMonotoneInLoad(l1: real, l2: real, runwayType: string, tirePressureLimitKpa: Option<real>)
    requires l1 <= l2
    ensures EstimateTireDiameter(l1, runwayType, tirePressureLimitKpa).0 <= EstimateTireDiameter(l2, runwayType, tirePressureLimitKpa).0
    ensures EstimateTireDiameter(l1, runwayType, tirePressureLimitKpa).1 <= EstimateTireDiameter(l2, runwayType, tirePressureLimitKpa).1
  {
    TireDiameterBandMonotone(l1, l2);
    var f := TireRunwayFactor(runwayType) * TirePressureFactor(tirePressureLimitKpa);
    MulNonNegative(TireRunwayFactor(runwayType), TirePressureFactor(tirePressureLimitKpa));
    MulMonotone(TireDiameterBand(l1).0, TireDiameterBand(l2).0, f);
    MulMonotone(TireDiameterBand(l1).1, TireDiameterBand(l2).1, f);
  }

  /** A band scaled by larger runway and pressure factors is never smaller. */
  lemma LargerFactorsNotSmaller(band: (real, real), r1: real, p1: real, r2: real, p2: real)
    requires 0.0 <= band.0 && 0.0 <= band.1
    requires 1.0 <= r1 <= r2 && 1.0 <= p1 <= p2
    ensures band.0 * (r1 * p1) <= band.0 * (r2 * p2)
    ensures band.1 * (r1 * p1) <= band.1 * (r2 * p2)
  {
    MulMonotone(r1, r2, p1);
    MulMonotone(p1, p2, r2);
    assert r1 * p1 <= r2 * p2;
    MulMonotone(r1 * p1, r2 * p2, band.0);
    MulMonotone(r1 * p1, r2 * p2, band.1);
  }

  /** A softer surface never narrows the diameter range: any surface gets at least the paved range. */
  lemma TireDiameterSofterSurfaceNotSmaller(loadPerTireN: real, runwayType: string, tirePressureLimitKpa: Option<real>)
    ensures EstimateTireDiameter(loadPerTireN, "paved", tirePressureLimitKpa).0 <= EstimateTireDiameter(loadPerTireN, runwayType, tirePressureLimitKpa).0
    ensures EstimateTireDiameter(loadPerTireN, "paved", tirePressureLimitKpa).1 <= EstimateTireDiameter(loadPerTireN, runwayType, tirePressureLimitKpa).1
  {
    TireRunwayFactorTable(runwayType);
    LargerFactorsNotSmaller(TireDiameterBand(loadPerTireN), TireRunwayFactor("paved"), TirePressureFactor(tirePressureLimitKpa),
                            TireRunwayFactor(runwayType), TirePressureFactor(tirePressureLimitKpa));
  }

  /** Grass gets at least the gravel diameter range. */
  lemma TireDiameterGrassNotBelowGravel(loadPerTireN: real, tirePressureLimitKpa: Option<real>)
    ensures EstimateTireDiameter(loadPerTireN, "gravel", tirePressureLimitKpa).0 <= EstimateTireDiameter(loadPerTireN, "grass", tirePressureLimitKpa).0
    ensures EstimateTireDiameter(loadPerTireN, "gravel", tirePressureLimitKpa).1 <= EstimateTireDiameter(loadPerTireN, "grass", tirePressureLimitKpa).1
  {
    TireRunwayFactorTable("grass");
    LargerFactorsNotSmaller(TireDiameterBand(loadPerTireN), TireRunwayFactor("gravel"), TirePressureFactor(tirePressureLimitKpa),
                            TireRunwayFactor("grass"), TirePressureFactor(tirePressureLimitKpa));
  }

  /** A lower pressure limit, or any limit rather than none, never narrows the diameter range. */
  lemma TireDiameterLowerPressureNotSmaller(loadPerTireN: real, runwayType: string, p1: real, p2: real)
    requires p1 <= p2
    ensures EstimateTireDiameter(loadPerTireN, runwayType, Some(p2)).0 <= EstimateTireDiameter(loadPerTireN, runwayType, Some(p1)).0
    ensures EstimateTireDiameter(loadPerTireN, runwayType, Some(p2)).1 <= EstimateTireDiameter(loadPerTireN, runwayType, Some(p1)).1
    ensures EstimateTireDiameter(loadPerTireN, runwayType, None).0 <= EstimateTireDiameter(loadPerTireN, runwayType, Some(p1)).0
    ensures EstimateTireDiameter(loadPerTireN, runwayType, None).1 <= EstimateTireDiameter(loadPerTireN, runwayType, Some(p1)).1
  {
    var band := TireDiameterBand(loadPerTireN);
    var r := TireRunwayFactor(runwayType);
    TirePressureFactorAntitone(p1, p2);
    LargerFactorsNotSmaller(band, r, TirePressureFactor(Some(p2)), r, TirePressureFactor(Some(p1)));
    LargerFactorsNotSmaller(band, r, TirePressureFactor(None), r, TirePressureFactor(Some(p1)));
  }

  /** The test scenarios: 3000 N paved gives 0.30-0.40 m, and 15000 N a strictly larger minimum. */
  lemma TireDiameterExamples()
    ensures EstimateTireDiameter(3000.0, "paved", None) == (0.30, 0.40)
    ensures EstimateTireDiameter(15000.0, "paved", None).0 > EstimateTireDiameter(3000.0, "paved", None).0
  {
  }
}
