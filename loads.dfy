// physics/loads.py: static load split by moment equilibrium, the dynamic
// load factor, tire load requirements, gear position estimates and the load
// per main wheel. Positions are x coordinates from the datum, positive aft.

module PhysicsLoads {
  import opened Wrappers
  import opened Builtins
  import PhysicsUnits
  import PhysicsEnergy

  datatype LoadSplit = LoadSplit(noseOrTailLoadN: real, mainLoadTotalN: real, noseFraction: real)

  /** The nose (or tail) share of the weight: load / weight, or 0 for a non-positive weight. */
  predicate IsFractionOf(fraction: real, load: real, weightN: real)
  {
    if weightN > 0.0 then fraction * weightN == load else fraction == 0.0
  }

  /**
   * Tricycle split: moments about the main gear balance the nose reaction
   * against the weight, and the main gear carries the rest. Raises when the
   * main gear is not aft of the nose gear.
   */
  function StaticLoadSplitTricycle(weightN: real, xCg: real, xMain: real, xNose: real): (r: Result<LoadSplit>)
    ensures r.Err? <==> xMain - xNose <= 0.0
    ensures r.Err? ==> r.error.ValueError?
    ensures r.Ok? ==> r.value.noseOrTailLoadN * (xMain - xNose) == weightN * (xMain - xCg)
    ensures r.Ok? ==> r.value.noseOrTailLoadN + r.value.mainLoadTotalN == weightN
    ensures r.Ok? ==> IsFractionOf(r.value.noseFraction, r.value.noseOrTailLoadN, weightN)
  {
    var wheelbase := xMain - xNose;
    if wheelbase <= 0.0 then Err(ValueError("Main gear must be aft of nose gear (x_main > x_nose)"))
    else
      var cgToMain := xMain - xCg;
      var rNose := weightN * cgToMain / wheelbase;
      var rMain := weightN - rNose;
      var noseFraction := if weightN > 0.0 then rNose / weightN else 0.0;
      Ok(LoadSplit(rNose, rMain, noseFraction))
  }

  lemma TricycleSplitExample()
    ensures StaticLoadSplitTricycle(10000.0, 2.2, 2.5, 0.5) == Ok(LoadSplit(1500.0, 8500.0, 0.15))
  {
  }

  /**
   * For a positive weight, the nose fraction lies in [0, 1] exactly when the
   * CG lies between the nose gear and the main gear.
   */
  lemma {:induction false} TricycleFractionInUnitInterval(weightN: real, xCg: real, xMain: real, xNose: real)
    requires weightN > 0.0 && xMain > xNose
    ensures var s := StaticLoadSplitTricycle(weightN, xCg, xMain, xNose).value;
            0.0 <= s.noseFraction <= 1.0 <==> xNose <= xCg <= xMain
  {
    var s := StaticLoadSplitTricycle(weightN, xCg, xMain, xNose).value;
    FractionOfArm(weightN, s.noseOrTailLoadN, s.noseFraction, xMain - xCg, xMain - xNose);
  }

  /**
   * Shared step of both splits: with load * span == weight * arm and
   * fraction * weight == load, the fraction is arm / span, which lies in
   * [0, 1] exactly when 0 <= arm <= span.
   */
  lemma FractionOfArm(weightN: real, load: real, fraction: real, arm: real, span: real)
    requires weightN > 0.0 && span > 0.0
    requires load * span == weightN * arm && fraction * weightN == load
    ensures 0.0 <= fraction <= 1.0 <==> 0.0 <= arm <= span
  {
    assert weightN * (fraction * span) == weightN * arm;
    assert fraction * span == arm by {
      if fraction * span != arm {
        ProductPositive(weightN, if fraction * span > arm then fraction * span - arm else arm - fraction * span,
                        weightN * (if fraction * span > arm then fraction * span - arm else arm - fraction * span));
      }
    }
    ShareBounds(fraction, span, arm);
  }

  lemma ShareBounds(fraction: real, span: real, arm: real)
    requires span > 0.0 && fraction * span == arm
    ensures 0.0 <= fraction <= 1.0 <==> 0.0 <= arm <= span
  {
    if fraction < 0.0 {
      ProductPositive(-fraction, span, (-fraction) * span);
    }
    if fraction > 1.0 {
      ProductPositive(fraction - 1.0, span, (fraction - 1.0) * span);
    }
    if 0.0 <= fraction <= 1.0 {
      MulMonotone(fraction, 1.0, span);
      MulNonNegative(fraction, span);
    }
  }

  /**
   * Taildragger split: moments about the main gear balance the tail reaction
   * against the weight. Raises when the tail wheel is not aft of the main gear.
   */
  function StaticLoadSplitTaildragger(weightN: real, xCg: real, xMain: real, xTail: real): (r: Result<LoadSplit>)
    ensures r.Err? <==> xTail - xMain <= 0.0
    ensures r.Err? ==> r.error.ValueError?
    ensures r.Ok? ==> r.value.noseOrTailLoadN * (xTail - xMain) == weightN * (xCg - xMain)
    ensures r.Ok? ==> r.value.noseOrTailLoadN + r.value.mainLoadTotalN == weightN
    ensures r.Ok? ==> IsFractionOf(r.value.noseFraction, r.value.noseOrTailLoadN, weightN)
  {
    var wheelbase := xTail - xMain;
    if wheelbase <= 0.0 then Err(ValueError("Tail wheel must be aft of main gear (x_tail > x_main)"))
    else
      var cgToMain := xCg - xMain;
      var rTail := weightN * cgToMain / wheelbase;
      var rMain := weightN - rTail;
      var tailFraction := if weightN > 0.0 then rTail / weightN else 0.0;
      Ok(LoadSplit(rTail, rMain, tailFraction))
  }

  lemma TaildraggerSplitExample()
    ensures StaticLoadSplitTaildragger(8000.0, 2.0, 1.8, 6.0).Ok?
    ensures var s := StaticLoadSplitTaildragger(8000.0, 2.0, 1.8, 6.0).value;
            380.95 < s.noseOrTailLoadN < 380.96 && s.noseOrTailLoadN + s.mainLoadTotalN == 8000.0
  {
  }

  /** For a positive weight, the tail fraction lies in [0, 1] exactly when the CG lies between main and tail gear. */
  lemma {:induction false} TaildraggerFractionInUnitInterval(weightN: real, xCg: real, xMain: real, xTail: real)
    requires weightN > 0.0 && xTail > xMain
    ensures var s := StaticLoadSplitTaildragger(weightN, xCg, xMain, xTail).value;
            0.0 <= s.noseFraction <= 1.0 <==> xMain <= xCg <= xTail
  {
    var s := StaticLoadSplitTaildragger(weightN, xCg, xMain, xTail).value;
    FractionOfArm(weightN, s.noseOrTailLoadN, s.noseFraction, xCg - xMain, xTail - xMain);
  }

  /** Load multiplier at touchdown, from the same energy balance as the sink load factor. */
  function DynamicLoadFactor(sinkRateMps: real, strokeM: real, efficiency: real): (r: Result<real>)
    ensures r.Err? <==> strokeM * efficiency == 0.0
    ensures r.Ok? ==> (r.value - 1.0) * (2.0 * PhysicsUnits.G_STANDARD * strokeM * efficiency)
                      == Square(sinkRateMps)
    ensures r.Ok? && strokeM > 0.0 && efficiency > 0.0 && sinkRateMps != 0.0 ==> r.value > 1.0
  {
    var g := PhysicsUnits.G_STANDARD;
    var denominator := 2.0 * g * strokeM * efficiency;
    assert denominator == 2.0 * g * (strokeM * efficiency);
    if denominator == 0.0 then Err(ZeroDivisionError)
    else
      assert strokeM > 0.0 && efficiency > 0.0 ==> denominator > 0.0 by {
        if strokeM > 0.0 && efficiency > 0.0 { ProductPositive(strokeM, efficiency, strokeM * efficiency); }
      }
      assert denominator > 0.0 && sinkRateMps != 0.0 ==> Square(sinkRateMps) / denominator > 0.0 by {
        if denominator > 0.0 && sinkRateMps != 0.0 { DivPositive(Square(sinkRateMps), denominator); }
      }
      Ok(Square(sinkRateMps) / denominator + 1.0)
  }

  /** The dynamic load factor is the landing load factor from sink rate. */
  lemma DynamicFactorIsSinkLoadFactor(sinkRateMps: real, strokeM: real, efficiency: real)
    ensures DynamicLoadFactor(sinkRateMps, strokeM, efficiency)
         == PhysicsEnergy.LoadFactorFromSink(sinkRateMps, strokeM, efficiency)
  {
  }

  const DEFAULT_TIRE_SAFETY_FACTOR: real := 1.5

  /**
   * Required (static, dynamic) tire rating per wheel: the static load times
   * the safety factor, and that figure times the dynamic factor.
   */
  function TireLoadRequirements(staticMainLoadPerWheelN: real, dynamicFactor: real, safetyFactor: real)
    : (r: (real, real))
    ensures r.0 == staticMainLoadPerWheelN * safetyFactor
    ensures r.1 == r.0 * dynamicFactor
    ensures staticMainLoadPerWheelN >= 0.0 && safetyFactor >= 0.0 ==> r.0 >= 0.0
    ensures r.0 >= 0.0 && dynamicFactor >= 1.0 ==> r.1 >= r.0
  {
    var requiredStatic := staticMainLoadPerWheelN * safetyFactor;
    var requiredDynamic := staticMainLoadPerWheelN * dynamicFactor * safetyFactor;
    MulSwap(staticMainLoadPerWheelN, dynamicFactor, safetyFactor);
    ProductNonNegativeWhen(staticMainLoadPerWheelN, safetyFactor);
    ScaledUpWhen(requiredStatic, dynamicFactor);
    (requiredStatic, requiredDynamic)
  }

  lemma ProductNonNegativeWhen(a: real, b: real)
    ensures a >= 0.0 && b >= 0.0 ==> a * b >= 0.0
  {
    if a >= 0.0 && b >= 0.0 {
      MulNonNegative(a, b);
    }
  }

  lemma ScaledUpWhen(x: real, factor: real)
    ensures x >= 0.0 && factor >= 1.0 ==> x * factor >= x
  {
    if x >= 0.0 && factor >= 1.0 {
      MulMonotone(1.0, factor, x);
      MulSwap(1.0, factor, x);
    }
  }

  lemma TireLoadRequirementsExample()
    ensures TireLoadRequirements(5000.0, 2.0, DEFAULT_TIRE_SAFETY_FACTOR) == (7500.0, 15000.0)
  {
  }

  /**
   * Tricycle position ranges (nose min, nose max, main min, main max): the
   * main range is centred on the guess, or 0.024 L aft of the aft CG, with
   * a half-width of 0.05 L; the nose range runs from 0.03 L ahead of its
   * centre (the guess, or 0.08 L), but never ahead of 0.05 L, to 0.05 L aft
   * of it.
   */
  function EstimateGearPositionsTricycle(cgFwdM: real, cgAftM: real, fuselageLengthM: real,
                                         mainGearGuessM: Option<real>, noseGearGuessM: Option<real>)
    : (r: (real, real, real, real))
    ensures var mainMid := if mainGearGuessM.Some? then mainGearGuessM.value else cgAftM + 0.024 * fuselageLengthM;
            r.2 + 0.05 * fuselageLengthM == mainMid && r.3 - 0.05 * fuselageLengthM == mainMid
    ensures var noseMid := if noseGearGuessM.Some? then noseGearGuessM.value else 0.08 * fuselageLengthM;
            r.1 - 0.05 * fuselageLengthM == noseMid
            && r.0 >= 0.05 * fuselageLengthM && r.0 >= noseMid - 0.03 * fuselageLengthM
            && (r.0 == 0.05 * fuselageLengthM || r.0 == noseMid - 0.03 * fuselageLengthM)
  {
    var xMainMid := if mainGearGuessM.Some? then mainGearGuessM.value
                    else
                      var wheelbaseEst := 0.30 * fuselageLengthM;
                      cgAftM + 0.08 * wheelbaseEst;
    var xMainMin := xMainMid - 0.05 * fuselageLengthM;
    var xMainMax := xMainMid + 0.05 * fuselageLengthM;
    var xNoseMid := if noseGearGuessM.Some? then noseGearGuessM.value else 0.08 * fuselageLengthM;
    var xNoseMin := Max(0.05 * fuselageLengthM, xNoseMid - 0.03 * fuselageLengthM);
    var xNoseMax := xNoseMid + 0.05 * fuselageLengthM;
    (xNoseMin, xNoseMax, xMainMin, xMainMax)
  }

  /**
   * Taildragger position ranges (main min, main max, tail min, tail max):
   * the main range runs from 0.05 L ahead of its centre (the guess, or
   * 0.07 L ahead of the forward CG) to 0.03 L aft of it; the tail range is
   * [0.85 L, 0.95 L].
   */
  function EstimateGearPositionsTaildragger(cgFwdM: real, cgAftM: real, fuselageLengthM: real,
                                            mainGearGuessM: Option<real>)
    : (r: (real, real, real, real))
    ensures var mainMid := if mainGearGuessM.Some? then mainGearGuessM.value else cgFwdM - 0.07 * fuselageLengthM;
            r.0 + 0.05 * fuselageLengthM == mainMid && r.1 - 0.03 * fuselageLengthM == mainMid
    ensures r.2 == 0.85 * fuselageLengthM && r.3 == 0.95 * fuselageLengthM
  {
    var xMainMid := if mainGearGuessM.Some? then mainGearGuessM.value
                    else
                      var wheelbaseEst := 0.70 * fuselageLengthM;
                      cgFwdM - 0.10 * wheelbaseEst;
    var xMainMin := xMainMid - 0.05 * fuselageLengthM;
    var xMainMax := xMainMid + 0.03 * fuselageLengthM;
    var xTailMin := 0.85 * fuselageLengthM;
    var xTailMax := 0.95 * fuselageLengthM;
    (xMainMin, xMainMax, xTailMin, xTailMax)
  }

  const DEFAULT_MAIN_LEGS: int := 2

  /** Load on each main wheel: the total shared evenly by all main wheels. */
  function MainLoadPerWheel(mainLoadTotalN: real, wheelsPerSide: int, numMainLegs: int): (r: Result<real>)
    ensures r.Err? <==> wheelsPerSide * numMainLegs == 0
    ensures r.Err? ==> r.error == ZeroDivisionError
    ensures r.Ok? ==> r.value * ((wheelsPerSide * numMainLegs) as real) == mainLoadTotalN
  {
    var totalWheels := wheelsPerSide * numMainLegs;
    if totalWheels == 0 then Err(ZeroDivisionError)
    else Ok(mainLoadTotalN / (totalWheels as real))
  }

  lemma MainLoadPerWheelExample()
    ensures MainLoadPerWheel(10000.0, 1, DEFAULT_MAIN_LEGS) == Ok(5000.0)
    ensures MainLoadPerWheel(10000.0, 2, DEFAULT_MAIN_LEGS) == Ok(2500.0)
  {
  }
}
