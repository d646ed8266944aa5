// generator/candidates.py: the candidate generator. It enumerates
// configurations (gear type x wheel layout x stroke sample x tricycle or
// taildragger), builds a concept for each (geometry, loads, tire sizing,
// safety checks, hard constraints, explanation, score), sorts the survivors
// by score and keeps three to six of them.
//
// Any exception raised while building one concept discards that concept.
// The model makes every such exception an `Err` (a model-validation error, a
// division by zero, a missing attribute) and `BuildConcept` turns it into
// `None`. The cube root, square roots and the arctangent that the
// constructor and the rollover check evaluate come in as `Transcendentals`.

module Candidates {
  import opened Wrappers
  import opened Builtins
  import opened Inputs
  import opened Outputs
  import Sorting
  import PhysicsUnits
  import PhysicsEnergy
  import PhysicsGeometry
  import PhysicsLoads
  import Scorer

  /** One point of the configuration space. */
  datatype CandidateConfig = CandidateConfig(
    config: GearConfig,
    gearType: GearType,
    wheelsPerMainLeg: int,
    wheelsNoseOrTail: int,
    strokeM: real)

  /**
   * The irrational values the generator needs: the cube root of MTOW
   * (fuselage length), the square root of MTOW / 1000 (CG height), the
   * square root of sink / 2 (stroke range), and the rollover angle
   * atan2(track mid / 2, CG height) in degrees. Track and CG height are the
   * same for every candidate, so one angle serves them all.
   */
  datatype Transcendentals = Transcendentals(
    cubeRootMtow: real, sqrtMassRatio: real, sinkFactor: real, rolloverAngleDeg: real)

  predicate TranscendentalsFor(inputs: AircraftInputs, t: Transcendentals)
  {
    && PhysicsGeometry.IsCubeRoot(inputs.mtowKg, t.cubeRootMtow)
    && PhysicsGeometry.IsSquareRoot(inputs.mtowKg / 1000.0, t.sqrtMassRatio)
    && PhysicsEnergy.IsSinkFactor(inputs.sinkRateMps, t.sinkFactor)
  }

  /** The generator's state, all of it fixed by the constructor. */
  datatype GearGenerator = GearGenerator(
    inputs: AircraftInputs,
    scorer: Scorer.GearScorer,
    mlwKg: real,
    weightN: real,
    mtowWeightN: real,
    fuselageLength: real,
    cgHeight: real,
    touchdownEnergy: real,
    strokeRange: (real, real),
    rolloverAngleDeg: real)

  /**
   * The constructor. Loads are computed at the landing mass: `weightN` is
   * the weight of MLW (not MTOW), and the touchdown energy is that of MLW at
   * the design sink rate.
   */
  function NewGearGenerator(inputs: AircraftInputs, t: Transcendentals): (g: GearGenerator)
    requires TranscendentalsFor(inputs, t)
    ensures g.inputs == inputs
    ensures g.weightN / PhysicsUnits.G_STANDARD == inputs.GetMlwKg()
    ensures g.mtowWeightN / PhysicsUnits.G_STANDARD == inputs.mtowKg
    ensures g.touchdownEnergy == PhysicsEnergy.TouchdownEnergy(inputs.GetMlwKg(), inputs.sinkRateMps)
    ensures inputs.Valid() ==> g.touchdownEnergy > 0.0
    ensures g.fuselageLength * g.fuselageLength * g.fuselageLength
            == PhysicsGeometry.DEFAULT_K_FACTOR * PhysicsGeometry.DEFAULT_K_FACTOR
               * PhysicsGeometry.DEFAULT_K_FACTOR * inputs.mtowKg
    ensures 0.8 <= g.cgHeight <= 2.5
    ensures 0.08 <= g.strokeRange.0 <= 0.35 && 0.12 <= g.strokeRange.1 <= 0.50
    ensures g.scorer.weights == Normalized(inputs.designPriorities)
  {
    var mlw := inputs.GetMlwKg();
    GearGenerator(
      inputs,
      Scorer.NewGearScorer(inputs.designPriorities),
      mlw,
      PhysicsUnits.KgToN(mlw),
      PhysicsUnits.KgToN(inputs.mtowKg),
      PhysicsGeometry.EstimateFuselageLength(inputs.mtowKg, PhysicsGeometry.DEFAULT_K_FACTOR, t.cubeRootMtow),
      PhysicsGeometry.EstimateCgHeight(inputs.mtowKg, inputs.wingLow, t.sqrtMassRatio),
      PhysicsEnergy.TouchdownEnergy(mlw, inputs.sinkRateMps),
      PhysicsEnergy.RecommendStrokeRange(inputs.mtowKg, inputs.sinkRateMps, inputs.runway.Value(), t.sinkFactor),
      t.rolloverAngleDeg)
  }

  // ---------------------------------------------------------------------
  // The configuration space
  // ---------------------------------------------------------------------

  /**
   * Three stroke samples: both ends of the recommended range and its
   * midpoint. The two branches of the source (narrow range, half step)
   * give the same three values.
   */
  function StrokeSamples(g: GearGenerator): (s: seq<real>)
    ensures |s| == 3
    ensures s[0] == g.strokeRange.0 && s[2] == g.strokeRange.1
    ensures s[1] == (g.strokeRange.0 + g.strokeRange.1) / 2.0
  {
    var (minS, maxS) := g.strokeRange;
    if maxS - minS < 0.05 then [minS, (minS + maxS) / 2.0, maxS]
    else
      var step := (maxS - minS) / 2.0;
      [minS, minS + step, maxS]
  }

  /** Retractable only when retraction is required, else fixed then retractable. */
  function GearTypes(retractable: bool): (types: seq<GearType>)
    ensures Retractable in types && |types| == (if retractable then 1 else 2)
    ensures Fixed in types <==> !retractable
  {
    if retractable then [Retractable] else [Fixed, Retractable]
  }

  /** (wheels per main leg, nose wheels) layouts by weight class. */
  function WheelConfigs(mtowKg: real): (wcs: seq<(int, int)>)
    ensures |wcs| == (if mtowKg < 1500.0 then 1 else 2)
    ensures forall w :: w in wcs ==> 1 <= w.0 <= 2 && 1 <= w.1 <= 2
    ensures mtowKg < 4000.0 ==> (1, 1) in wcs
    ensures mtowKg >= 1500.0 ==> (2, 1) in wcs
  {
    if mtowKg < 1500.0 then [(1, 1)]
    else if mtowKg < 4000.0 then [(1, 1), (2, 1)]
    else [(2, 1), (2, 2)]
  }

  /** The configurations yielded for one stroke: a tricycle, then a taildragger for fixed gear. */
  function ConfigsAt(gearType: GearType, wheels: (int, int), stroke: real): seq<CandidateConfig>
  {
    [CandidateConfig(Tricycle, gearType, wheels.0, wheels.1, stroke)]
    + (if gearType == Fixed then [CandidateConfig(Taildragger, gearType, wheels.0, 1, stroke)] else [])
  }

  /** Innermost loop, over the stroke samples (defined from the last sample back). */
  function StrokeConfigs(gearType: GearType, wheels: (int, int), strokes: seq<real>): seq<CandidateConfig>
  {
    if strokes == [] then []
    else StrokeConfigs(gearType, wheels, strokes[..|strokes| - 1]) + ConfigsAt(gearType, wheels, strokes[|strokes| - 1])
  }

  /** Middle loop, over the wheel layouts. */
  function WheelLayoutConfigs(gearType: GearType, wcs: seq<(int, int)>, strokes: seq<real>): seq<CandidateConfig>
  {
    if wcs == [] then []
    else WheelLayoutConfigs(gearType, wcs[..|wcs| - 1], strokes) + StrokeConfigs(gearType, wcs[|wcs| - 1], strokes)
  }

  /** Outer loop, over the gear types. */
  function AllConfigs(types: seq<GearType>, wcs: seq<(int, int)>, strokes: seq<real>): seq<CandidateConfig>
  {
    if types == [] then []
    else AllConfigs(types[..|types| - 1], wcs, strokes) + WheelLayoutConfigs(types[|types| - 1], wcs, strokes)
  }

  /** Every configuration the generator tries, in the order it tries them. */
  function ValidConfigs(g: GearGenerator): seq<CandidateConfig>
  {
    AllConfigs(GearTypes(g.inputs.retractable), WheelConfigs(g.inputs.mtowKg), StrokeSamples(g))
  }

  /** The nested loops of the enumeration, appending configuration by configuration. */
  method GetValidConfigs(g: GearGenerator) returns (configs: seq<CandidateConfig>)
    ensures configs == ValidConfigs(g)
  {
    var gearTypes := GearTypes(g.inputs.retractable);
    var strokeSamples := StrokeSamples(g);
    var wheelConfigs := WheelConfigs(g.inputs.mtowKg);
    configs := [];
    var i := 0;
    while i < |gearTypes|
      invariant 0 <= i <= |gearTypes|
      invariant configs == AllConfigs(gearTypes[..i], wheelConfigs, strokeSamples)
    {
      var gearType := gearTypes[i];
      ghost var beforeType := configs;
      var j := 0;
      while j < |wheelConfigs|
        invariant 0 <= j <= |wheelConfigs|
        invariant configs == beforeType + WheelLayoutConfigs(gearType, wheelConfigs[..j], strokeSamples)
      {
        var wheels := wheelConfigs[j];
        ghost var beforeLayout := configs;
        var k := 0;
        while k < |strokeSamples|
          invariant 0 <= k <= |strokeSamples|
          invariant configs == beforeLayout + StrokeConfigs(gearType, wheels, strokeSamples[..k])
        {
          var stroke := strokeSamples[k];
          ghost var beforeStroke := configs;
          configs := configs + [CandidateConfig(Tricycle, gearType, wheels.0, wheels.1, stroke)];
          if gearType == Fixed {
            configs := configs + [CandidateConfig(Taildragger, gearType, wheels.0, 1, stroke)];
          }
          assert configs == beforeStroke + ConfigsAt(gearType, wheels, stroke);
          StrokeConfigsStep(gearType, wheels, strokeSamples, k);
          AppendAssociative(beforeLayout, StrokeConfigs(gearType, wheels, strokeSamples[..k]), ConfigsAt(gearType, wheels, stroke));
          k := k + 1;
        }
        assert strokeSamples[..k] == strokeSamples;
        WheelLayoutConfigsStep(gearType, wheelConfigs, strokeSamples, j);
        AppendAssociative(beforeType, WheelLayoutConfigs(gearType, wheelConfigs[..j], strokeSamples),
                          StrokeConfigs(gearType, wheels, strokeSamples));
        j := j + 1;
      }
      assert wheelConfigs[..j] == wheelConfigs;
      AllConfigsStep(gearTypes, wheelConfigs, strokeSamples, i);
      i := i + 1;
    }
    assert gearTypes[..i] == gearTypes;
  }

  lemma StrokeConfigsStep(gearType: GearType, wheels: (int, int), strokes: seq<real>, k: nat)
    requires k < |strokes|
    ensures StrokeConfigs(gearType, wheels, strokes[..k + 1])
         == StrokeConfigs(gearType, wheels, strokes[..k]) + ConfigsAt(gearType, wheels, strokes[k])
  {
    var prefix := strokes[..k + 1];
    assert prefix[..|prefix| - 1] == strokes[..k] && prefix[|prefix| - 1] == strokes[k];
  }

  lemma WheelLayoutConfigsStep(gearType: GearType, wcs: seq<(int, int)>, strokes: seq<real>, j: nat)
    requires j < |wcs|
    ensures WheelLayoutConfigs(gearType, wcs[..j + 1], strokes)
         == WheelLayoutConfigs(gearType, wcs[..j], strokes) + StrokeConfigs(gearType, wcs[j], strokes)
  {
    var prefix := wcs[..j + 1];
    assert prefix[..|prefix| - 1] == wcs[..j] && prefix[|prefix| - 1] == wcs[j];
  }

  lemma AllConfigsStep(types: seq<GearType>, wcs: seq<(int, int)>, strokes: seq<real>, i: nat)
    requires i < |types|
    ensures AllConfigs(types[..i + 1], wcs, strokes)
         == AllConfigs(types[..i], wcs, strokes) + WheelLayoutConfigs(types[i], wcs, strokes)
  {
    var prefix := types[..i + 1];
    assert prefix[..|prefix| - 1] == types[..i] && prefix[|prefix| - 1] == types[i];
  }

  /** Configurations per stroke sample: two for fixed gear (tricycle and taildragger), one for retractable. */
  function PerStroke(gearType: GearType): nat
  {
    if gearType == Fixed then 2 else 1
  }

  lemma {:induction false} StrokeConfigsCount(gearType: GearType, wheels: (int, int), strokes: seq<real>)
    ensures |StrokeConfigs(gearType, wheels, strokes)| == |strokes| * PerStroke(gearType)
  {
    if strokes != [] {
      StrokeConfigsCount(gearType, wheels, strokes[..|strokes| - 1]);
      MulSuccessor(|strokes|, PerStroke(gearType));
    }
  }

  lemma {:induction false} WheelLayoutConfigsCount(gearType: GearType, wcs: seq<(int, int)>, strokes: seq<real>)
    ensures |WheelLayoutConfigs(gearType, wcs, strokes)| == |wcs| * (|strokes| * PerStroke(gearType))
  {
    if wcs != [] {
      var prefix := wcs[..|wcs| - 1];
      WheelLayoutConfigsCount(gearType, prefix, strokes);
      StrokeConfigsCount(gearType, wcs[|wcs| - 1], strokes);
      assert |WheelLayoutConfigs(gearType, wcs, strokes)|
          == |WheelLayoutConfigs(gearType, prefix, strokes)| + |StrokeConfigs(gearType, wcs[|wcs| - 1], strokes)|;
      MulSuccessor(|wcs|, |strokes| * PerStroke(gearType));
    }
  }

  /**
   * The size of the configuration space: nine configurations per wheel
   * layout (three strokes x (fixed tricycle, fixed taildragger, retractable
   * tricycle)), or three when retraction is required.
   */
  lemma ValidConfigsCount(g: GearGenerator)
    ensures |ValidConfigs(g)| == (if g.inputs.retractable then 3 else 9) * |WheelConfigs(g.inputs.mtowKg)|
  {
    var types := GearTypes(g.inputs.retractable);
    var wcs := WheelConfigs(g.inputs.mtowKg);
    var strokes := StrokeSamples(g);
    WheelLayoutConfigsCount(Retractable, wcs, strokes);
    WheelLayoutConfigsCount(Fixed, wcs, strokes);
    var n := |wcs|;
    assert |WheelLayoutConfigs(Retractable, wcs, strokes)| == 3 * n;
    assert |WheelLayoutConfigs(Fixed, wcs, strokes)| == 6 * n;
    if g.inputs.retractable {
      assert types == [Retractable] && types[..0] == [];
      assert AllConfigs(types, wcs, strokes) == AllConfigs([], wcs, strokes) + WheelLayoutConfigs(Retractable, wcs, strokes);
    } else {
      assert types == [Fixed, Retractable] && types[..1] == [Fixed] && [Fixed][..0] == [];
      assert AllConfigs([Fixed], wcs, strokes) == AllConfigs([], wcs, strokes) + WheelLayoutConfigs(Fixed, wcs, strokes);
      assert AllConfigs(types, wcs, strokes) == AllConfigs([Fixed], wcs, strokes) + WheelLayoutConfigs(Retractable, wcs, strokes);
    }
  }

  /** What every enumerated configuration looks like. */
  predicate ConfigShape(c: CandidateConfig, types: seq<GearType>, wcs: seq<(int, int)>, strokes: seq<real>)
  {
    && c.gearType in types
    && c.strokeM in strokes
    && (c.config == Tricycle ==> (c.wheelsPerMainLeg, c.wheelsNoseOrTail) in wcs)
    && (c.config == Taildragger ==>
          c.gearType == Fixed && c.wheelsNoseOrTail == 1
          && exists w :: w in wcs && w.0 == c.wheelsPerMainLeg)
  }

  lemma {:induction false} StrokeConfigsShape(gearType: GearType, wheels: (int, int), strokes: seq<real>,
                                              c: CandidateConfig)
    requires c in StrokeConfigs(gearType, wheels, strokes)
    ensures ConfigShape(c, [gearType], [wheels], strokes)
  {
    var last := strokes[|strokes| - 1];
    if c in StrokeConfigs(gearType, wheels, strokes[..|strokes| - 1]) {
      StrokeConfigsShape(gearType, wheels, strokes[..|strokes| - 1], c);
      assert strokes[..|strokes| - 1] <= strokes;
    } else {
      assert c in ConfigsAt(gearType, wheels, last);
      assert wheels in [wheels];
    }
  }

  lemma {:induction false} WheelLayoutConfigsShape(gearType: GearType, wcs: seq<(int, int)>, strokes: seq<real>,
                                                   c: CandidateConfig)
    requires c in WheelLayoutConfigs(gearType, wcs, strokes)
    ensures ConfigShape(c, [gearType], wcs, strokes)
  {
    var last := wcs[|wcs| - 1];
    if c in WheelLayoutConfigs(gearType, wcs[..|wcs| - 1], strokes) {
      WheelLayoutConfigsShape(gearType, wcs[..|wcs| - 1], strokes, c);
      assert wcs[..|wcs| - 1] <= wcs;
      if c.config == Taildragger {
        var w :| w in wcs[..|wcs| - 1] && w.0 == c.wheelsPerMainLeg;
        assert w in wcs;
      }
    } else {
      StrokeConfigsShape(gearType, last, strokes, c);
      if c.config == Taildragger {
        assert last in wcs && last.0 == c.wheelsPerMainLeg;
      }
    }
  }

  lemma {:induction false} AllConfigsShape(types: seq<GearType>, wcs: seq<(int, int)>, strokes: seq<real>,
                                           c: CandidateConfig)
    requires c in AllConfigs(types, wcs, strokes)
    ensures ConfigShape(c, types, wcs, strokes)
  {
    if c in AllConfigs(types[..|types| - 1], wcs, strokes) {
      AllConfigsShape(types[..|types| - 1], wcs, strokes, c);
      assert types[..|types| - 1] <= types;
    } else {
      WheelLayoutConfigsShape(types[|types| - 1], wcs, strokes, c);
    }
  }

  /**
   * Every enumerated configuration is retractable when retraction is
   * required; taildraggers are fixed with a single tail wheel; wheel counts
   * are one or two; the stroke is one of the three samples.
   */
  lemma ValidConfigsShape(g: GearGenerator, c: CandidateConfig)
    requires c in ValidConfigs(g)
    ensures g.inputs.retractable ==> c.gearType == Retractable
    ensures c.config == Taildragger ==> c.gearType == Fixed && c.wheelsNoseOrTail == 1
    ensures 1 <= c.wheelsPerMainLeg <= 2 && 1 <= c.wheelsNoseOrTail <= 2
    ensures c.strokeM in StrokeSamples(g)
  {
    var wcs := WheelConfigs(g.inputs.mtowKg);
    AllConfigsShape(GearTypes(g.inputs.retractable), wcs, StrokeSamples(g), c);
    if c.config == Taildragger {
      var w :| w in wcs && w.0 == c.wheelsPerMainLeg;
    }
  }

  // ---------------------------------------------------------------------
  // Building one concept
  // ---------------------------------------------------------------------

  /**
   * Geometry ranges of a configuration: track, wheelbase and struts from
   * the heuristics (the nose or tail strut without propeller clearance),
   * and a stroke band of +-10 % around the sampled stroke.
   */
  function CalculateGeometry(g: GearGenerator, c: CandidateConfig): (geometry: Geometry)
    ensures geometry.strokeM == GeometryRange(c.strokeM * 0.9, c.strokeM * 1.1)
    ensures geometry.strokeM.Mid() == c.strokeM
    ensures c.strokeM >= 0.0 ==> geometry.strokeM.min <= c.strokeM <= geometry.strokeM.max
    ensures 1.5 <= geometry.trackM.min && geometry.trackM.max <= 6.0
    ensures geometry.wheelbaseM
            == GeometryRange(PhysicsGeometry.WheelbaseRange(g.fuselageLength, c.config.Value()).0,
                             PhysicsGeometry.WheelbaseRange(g.fuselageLength, c.config.Value()).1)
    ensures g.inputs.propClearanceM > 0.0 ==> geometry.mainStrutLengthM.min >= g.inputs.propClearanceM + 0.15
    ensures geometry.noseOrTailStrutLengthM.min <= geometry.mainStrutLengthM.min
    ensures 0.0 < geometry.mainStrutLengthM.min < geometry.mainStrutLengthM.max
  {
    var track := PhysicsGeometry.TrackRange(g.fuselageLength, g.inputs.runway.Value(), g.inputs.wingLow);
    var wheelbase := PhysicsGeometry.WheelbaseRange(g.fuselageLength, c.config.Value());
    var mainStrut := PhysicsGeometry.StrutLengthRange(g.inputs.mtowKg, g.inputs.propClearanceM, true);
    var noseStrut := PhysicsGeometry.StrutLengthRange(g.inputs.mtowKg, 0.0, false);
    PhysicsGeometry.NoseStrutShorterThanMain(g.inputs.mtowKg, g.inputs.propClearanceM);
    Geometry(
      GeometryRange(track.0, track.1),
      GeometryRange(wheelbase.0, wheelbase.1),
      GeometryRange(mainStrut.0, mainStrut.1),
      GeometryRange(noseStrut.0, noseStrut.1),
      GeometryRange(c.strokeM * 0.9, c.strokeM * 1.1))
  }

  /** Mid-range main and nose (or tail) positions used for the static split and the checks. */
  function GearPositions(g: GearGenerator, config: GearConfig): (p: (real, real))
  {
    var inputs := g.inputs;
    if config == Tricycle then
      var (noseMin, noseMax, mainMin, mainMax) := PhysicsLoads.EstimateGearPositionsTricycle(
        inputs.cgFwdM, inputs.cgAftM, g.fuselageLength, inputs.mainGearAttachGuessM, inputs.noseGearAttachGuessM);
      ((mainMin + mainMax) / 2.0, (noseMin + noseMax) / 2.0)
    else
      var (mainMin, mainMax, tailMin, tailMax) := PhysicsLoads.EstimateGearPositionsTaildragger(
        inputs.cgFwdM, inputs.cgAftM, g.fuselageLength, inputs.mainGearAttachGuessM);
      ((mainMin + mainMax) / 2.0, (tailMin + tailMax) / 2.0)
  }

  /** Static split of the landing weight at the mid CG, between the main gear and the nose or tail gear. */
  function LoadSplitFor(g: GearGenerator, config: GearConfig): (r: Result<PhysicsLoads.LoadSplit>)
    ensures r.Ok? ==> r.value.noseOrTailLoadN + r.value.mainLoadTotalN == g.weightN
  {
    var (xMain, xOther) := GearPositions(g, config);
    if config == Tricycle then PhysicsLoads.StaticLoadSplitTricycle(g.weightN, g.inputs.CgMidM(), xMain, xOther)
    else PhysicsLoads.StaticLoadSplitTaildragger(g.weightN, g.inputs.CgMidM(), xMain, xOther)
  }

  /**
   * The load record of a configuration. It fails when the split fails
   * (gear positions out of order), when the shock force cannot be computed,
   * or when the record's own bounds reject it (a nose fraction outside
   * [0, 1], say); otherwise it splits the LANDING weight, shares the main
   * load evenly over all main wheels, and sizes the shock force for the
   * landing energy over the sampled stroke.
   */
  function CalculateLoads(g: GearGenerator, c: CandidateConfig): (r: Result<Loads>)
    ensures r.Ok? ==> r.value.FieldsValid()
    ensures r.Ok? ==> r.value.staticNoseOrTailLoadN + r.value.staticMainLoadTotalN == g.weightN
    ensures r.Ok? ==> r.value.staticMainLoadPerWheelN * ((2 * c.wheelsPerMainLeg) as real)
                      == r.value.staticMainLoadTotalN
    ensures r.Ok? ==> r.value.landingEnergyJ == g.touchdownEnergy
    ensures r.Ok? ==> r.value.requiredAvgForceN * c.strokeM * PhysicsEnergy.DEFAULT_EFFICIENCY == g.touchdownEnergy
    ensures LoadSplitFor(g, c.config).Err? || c.wheelsPerMainLeg == 0 || c.strokeM <= 0.0 ==> r.Err?
    ensures (&& LoadSplitFor(g, c.config).Ok? && c.wheelsPerMainLeg != 0 && c.strokeM > 0.0
             && g.touchdownEnergy >= 0.0)
            ==> (r.Ok? <==> 0.0 <= LoadSplitFor(g, c.config).value.noseFraction <= 1.0)
  {
    var split :- LoadSplitFor(g, c.config);
    var perWheel :- PhysicsLoads.MainLoadPerWheel(split.mainLoadTotalN, c.wheelsPerMainLeg, PhysicsLoads.DEFAULT_MAIN_LEGS);
    var force :- PhysicsEnergy.RequiredShockForce(g.touchdownEnergy, c.strokeM, PhysicsEnergy.DEFAULT_EFFICIENCY);
    var loads := Loads(split.noseOrTailLoadN, split.mainLoadTotalN, perWheel, g.touchdownEnergy, force,
                       split.noseFraction);
    if !loads.FieldsValid() then Err(ValidationError("loads")) else Ok(loads)
  }

  /**
   * Tire requirements of a configuration: the static per-wheel load with
   * the 1.5 safety factor, times the dynamic load factor of the sampled
   * stroke, a diameter range for that load, and on grass or gravel a width
   * of 40 % of the mid diameter. A negative requirement is rejected by the
   * record's bounds.
   */
  function CalculateTireSuggestion(g: GearGenerator, c: CandidateConfig, loads: Loads): (r: Result<TireSuggestion>)
    ensures r.Ok? ==> r.value.FieldsValid()
    ensures r.Ok? ==> r.value.requiredStaticLoadPerWheelN
                      == loads.staticMainLoadPerWheelN * PhysicsLoads.DEFAULT_TIRE_SAFETY_FACTOR
    ensures r.Ok? ==> 0.25 <= r.value.recommendedTireDiameterRangeM.min < r.value.recommendedTireDiameterRangeM.max
    ensures r.Ok? ==> (r.value.suggestedTireWidthM.Some? <==> g.inputs.runway != Paved)
    ensures r.Ok? && r.value.suggestedTireWidthM.Some? ==>
              r.value.suggestedTireWidthM.value == r.value.recommendedTireDiameterRangeM.Mid() * 0.40
    ensures c.strokeM > 0.0 && loads.staticMainLoadPerWheelN >= 0.0 ==> r.Ok?
    ensures c.strokeM == 0.0 || loads.staticMainLoadPerWheelN < 0.0 ==> r.Err?
  {
    var dynamicFactor :- PhysicsLoads.DynamicLoadFactor(g.inputs.sinkRateMps, c.strokeM, PhysicsEnergy.DEFAULT_EFFICIENCY);
    var (staticReq, dynamicReq) := PhysicsLoads.TireLoadRequirements(
      loads.staticMainLoadPerWheelN, dynamicFactor, PhysicsLoads.DEFAULT_TIRE_SAFETY_FACTOR);
    var (diamMin, diamMax) := PhysicsGeometry.EstimateTireDiameter(
      loads.staticMainLoadPerWheelN, g.inputs.runway.Value(), g.inputs.tirePressureLimitKpa);
    var width := if g.inputs.runway in {Grass, Gravel} then Some((diamMin + diamMax) / 2.0 * 0.40) else None;
    var tire := TireSuggestion(staticReq, dynamicReq, GeometryRange(diamMin, diamMax), width);
    if !tire.FieldsValid() then Err(ValidationError("tire_suggestion")) else Ok(tire)
  }

  /**
   * The tip-back and nose-over results before they are copied into the
   * check record: the geometry module's safety results for a tricycle,
   * plain check records for a taildragger. Only the safety result has the
   * `margin_value` and `required_margin` attributes the copy reads.
   */
  datatype MarginCheck =
    | SafetyCheck(result: PhysicsGeometry.SafetyCheckResult)
    | PlainCheck(check: CheckResult)

  /** Tip-back and nose-over results of a configuration; the taildragger margin divides by the wheelbase. */
  function MarginChecks(g: GearGenerator, c: CandidateConfig, geometry: Geometry): (r: Result<(MarginCheck, MarginCheck)>)
    ensures r.Ok? && c.config == Tricycle ==> r.value.0.SafetyCheck? && r.value.1.SafetyCheck?
    ensures c.config == Tricycle ==> r.Ok?
    ensures r.Ok? && c.config == Taildragger ==> r.value.0.PlainCheck? && r.value.1.PlainCheck?
    ensures c.config == Taildragger ==> (r.Err? <==> geometry.wheelbaseM.Mid() == 0.0)
  {
    var wheelbase := geometry.wheelbaseM.Mid();
    var (xMain, xOther) := GearPositions(g, c.config);
    if c.config == Tricycle then
      var tipBack := PhysicsGeometry.CheckTipBackMargin(g.inputs.cgAftM, xMain, wheelbase, g.cgHeight, 0.15);
      var noseOver := PhysicsGeometry.CheckNoseOverMargin(g.inputs.cgFwdM, xMain, xOther, g.cgHeight,
        PhysicsGeometry.DEFAULT_BRAKING_DECEL_G, PhysicsGeometry.DEFAULT_NOSE_OVER_MARGIN);
      Ok((SafetyCheck(tipBack), SafetyCheck(noseOver)))
    else if wheelbase == 0.0 then Err(ZeroDivisionError)
    else
      var margin := (g.inputs.cgFwdM - xMain) / wheelbase;
      Ok((PlainCheck(CheckResult(margin > 0.05, margin, 0.05)), PlainCheck(CheckResult(true, 1.0, 0.0))))
  }

  /**
   * The five checks of a configuration. For a tricycle they are the
   * tip-back check at the aft CG (margin 0.15), the nose-over check at the
   * forward CG, the ground clearance of the mid strut, stroke and tire
   * radius, and the rollover check of the mid track; propeller clearance is
   * the ground-clearance result when a clearance is required. For a
   * taildragger the record cannot be built: its margins are plain check
   * records without a `margin_value`, so the build always fails.
   */
  function RunChecks(g: GearGenerator, c: CandidateConfig, geometry: Geometry, tire: TireSuggestion)
    : (r: Result<Checks>)
    ensures c.config == Taildragger ==> r.Err?
    ensures c.config == Taildragger && geometry.wheelbaseM.Mid() != 0.0 ==> r == Err(AttributeError("margin_value"))
    ensures c.config == Tricycle ==> r.Ok?
    ensures r.Ok? ==> (r.value.propClearanceOk <==> (g.inputs.propClearanceM > 0.0 ==> r.value.groundClearanceOk))
    ensures r.Ok? ==> (r.value.lateralStabilityOk <==> g.rolloverAngleDeg >= PhysicsGeometry.DEFAULT_MIN_ROLLOVER_ANGLE_DEG)
    ensures r.Ok? ==> r.value.tipBackMargin.limit == 0.15
                      && (r.value.tipBackMargin.passed <==> r.value.tipBackMargin.value >= 0.15)
  {
    var margins :- MarginChecks(g, c, geometry);
    var tireRadius := tire.recommendedTireDiameterRangeM.Mid() / 2.0;
    var clearance := PhysicsGeometry.CheckGroundClearance(geometry.mainStrutLengthM.Mid(), geometry.strokeM.Mid(),
      tireRadius, g.inputs.propClearanceM, PhysicsGeometry.DEFAULT_STATIC_DEFLECTION_FRACTION);
    var rollover := PhysicsGeometry.CheckLateralRollover(geometry.trackM.Mid(), g.cgHeight, g.rolloverAngleDeg,
      PhysicsGeometry.DEFAULT_MIN_ROLLOVER_ANGLE_DEG);
    var propOk := if g.inputs.propClearanceM > 0.0 then clearance.passed else true;
    match margins
    case (SafetyCheck(tipBack), SafetyCheck(noseOver)) =>
      Ok(Checks(CheckResult(tipBack.passed, tipBack.marginValue, tipBack.requiredMargin),
                CheckResult(noseOver.passed, noseOver.marginValue, noseOver.requiredMargin),
                clearance.passed, rollover.passed, propOk))
    case _ =>
      // a plain check record has no `margin_value`
      Err(AttributeError("margin_value"))
  }

  /** Hard constraints: fixed gear is rejected when retraction is required, and the propeller must clear. */
  function PassesHardConstraints(g: GearGenerator, c: CandidateConfig, checks: Checks): (ok: bool)
    ensures ok <==> !(g.inputs.retractable && c.gearType == Fixed) && checks.propClearanceOk
  {
    if g.inputs.retractable && c.gearType == Fixed then false
    else if !checks.propClearanceOk then false
    else true
  }

  // ---------------------------------------------------------------------
  // Explanation
  // ---------------------------------------------------------------------

  /** The nose-load bullet: ideal between 8 % and 15 %, low below, high above. */
  function NoseLoadBullet(noseLoadFraction: real): (b: Bullet)
    ensures b.NoseLoadIdeal? || b.NoseLoadLow? || b.NoseLoadHigh?
    ensures b.percent == noseLoadFraction * 100.0
    ensures b.NoseLoadIdeal? <==> 0.08 <= noseLoadFraction <= 0.15
    ensures b.NoseLoadLow? <==> noseLoadFraction < 0.08
  {
    var nosePct := noseLoadFraction * 100.0;
    if 8.0 <= nosePct <= 15.0 then NoseLoadIdeal(nosePct)
    else if nosePct < 8.0 then NoseLoadLow(nosePct)
    else NoseLoadHigh(nosePct)
  }

  function ConfigNote(c: CandidateConfig): Bullet
  {
    if c.config == Tricycle then TricycleRationale else TaildraggerRationale
  }

  function GearTypeNote(c: CandidateConfig): Bullet
  {
    if c.gearType == Fixed then FixedRationale else RetractableRationale
  }

  function WheelNote(c: CandidateConfig): Bullet
  {
    if c.wheelsPerMainLeg == 1 then SingleWheelRationale else DualWheelRationale
  }

  /** A note for a grass or gravel runway, nothing for a paved one. */
  function RunwayNotes(runway: RunwayType): (notes: seq<Bullet>)
    ensures GrassNote in notes <==> runway == Grass
    ensures GravelNote in notes <==> runway == Gravel
    ensures |notes| <= 1
  {
    if runway == Grass then [GrassNote] else if runway == Gravel then [GravelNote] else []
  }

  /** "Margins acceptable" when both pass, else one warning per failing margin. */
  function CheckNotes(checks: Checks): (notes: seq<Bullet>)
    ensures 1 <= |notes| <= 2
    ensures MarginsOk in notes <==> checks.tipBackMargin.passed && checks.noseOverMargin.passed
    ensures TipBackWarning in notes <==> !checks.tipBackMargin.passed
    ensures NoseOverWarning in notes <==> !checks.noseOverMargin.passed
  {
    if checks.tipBackMargin.passed && checks.noseOverMargin.passed then [MarginsOk]
    else (if !checks.tipBackMargin.passed then [TipBackWarning] else [])
         + (if !checks.noseOverMargin.passed then [NoseOverWarning] else [])
  }

  /** The explanation bullets of a concept, in the order they are appended. */
  function Explanation(runway: RunwayType, c: CandidateConfig, loads: Loads, checks: Checks): (bullets: seq<Bullet>)
    ensures 5 <= |bullets| <= 7
    ensures bullets[0] == (if c.config == Tricycle then TricycleRationale else TaildraggerRationale)
    ensures bullets[1] == (if c.gearType == Fixed then FixedRationale else RetractableRationale)
    ensures bullets[2] == (if c.wheelsPerMainLeg == 1 then SingleWheelRationale else DualWheelRationale)
    ensures (GrassNote in bullets <==> runway == Grass) && (GravelNote in bullets <==> runway == Gravel)
    ensures NoseLoadBullet(loads.noseLoadFraction) in bullets
    ensures MarginsOk in bullets <==> checks.tipBackMargin.passed && checks.noseOverMargin.passed
    ensures TipBackWarning in bullets <==> !checks.tipBackMargin.passed
    ensures NoseOverWarning in bullets <==> !checks.noseOverMargin.passed
  {
    [ConfigNote(c), GearTypeNote(c), WheelNote(c)] + RunwayNotes(runway) + [NoseLoadBullet(loads.noseLoadFraction)]
    + CheckNotes(checks)
  }

  /** The explanation as the generator builds it, one append at a time. */
  method GenerateExplanation(runway: RunwayType, c: CandidateConfig, loads: Loads, checks: Checks)
    returns (explanation: seq<Bullet>)
    ensures explanation == Explanation(runway, c, loads, checks)
  {
    explanation := [];
    explanation := explanation + [if c.config == Tricycle then TricycleRationale else TaildraggerRationale];
    explanation := explanation + [if c.gearType == Fixed then FixedRationale else RetractableRationale];
    explanation := explanation + [if c.wheelsPerMainLeg == 1 then SingleWheelRationale else DualWheelRationale];
    assert explanation == [ConfigNote(c), GearTypeNote(c), WheelNote(c)];
    if runway == Grass {
      explanation := explanation + [GrassNote];
    } else if runway == Gravel {
      explanation := explanation + [GravelNote];
    }
    assert explanation == [ConfigNote(c), GearTypeNote(c), WheelNote(c)] + RunwayNotes(runway);
    var nosePct := loads.noseLoadFraction * 100.0;
    if 8.0 <= nosePct <= 15.0 {
      explanation := explanation + [NoseLoadIdeal(nosePct)];
    } else if nosePct < 8.0 {
      explanation := explanation + [NoseLoadLow(nosePct)];
    } else {
      explanation := explanation + [NoseLoadHigh(nosePct)];
    }
    ghost var prefix := explanation;
    assert prefix == [ConfigNote(c), GearTypeNote(c), WheelNote(c)] + RunwayNotes(runway)
                     + [NoseLoadBullet(loads.noseLoadFraction)];
    if checks.tipBackMargin.passed && checks.noseOverMargin.passed {
      explanation := explanation + [MarginsOk];
    } else {
      if !checks.tipBackMargin.passed {
        explanation := explanation + [TipBackWarning];
      }
      if !checks.noseOverMargin.passed {
        explanation := explanation + [NoseOverWarning];
      }
    }
    assert explanation == prefix + CheckNotes(checks);
  }

  // ---------------------------------------------------------------------
  // The concept pipeline
  // ---------------------------------------------------------------------

  /**
   * The steps of `_build_concept` inside its `try`: `Ok(None)` for a
   * configuration the hard constraints reject, `Err` for one that raised.
   */
  function TryBuildConcept(g: GearGenerator, c: CandidateConfig): (r: Result<Option<GearConcept>>)
    ensures c.config == Taildragger ==> r.Err?
    ensures r.Ok? && r.value.Some? ==> PassesHardConstraints(g, c, r.value.value.checks)
  {
    var geometry := CalculateGeometry(g, c);
    var loads :- CalculateLoads(g, c);
    var tire :- CalculateTireSuggestion(g, c, loads);
    var checks :- RunChecks(g, c, geometry, tire);
    if !PassesHardConstraints(g, c, checks) then Ok(None)
    else
      var explanation := Explanation(g.inputs.runway, c, loads, checks);
      var (score, breakdown) := Scorer.ScoreConcept(g.scorer, c.config, c.gearType, checks, loads, geometry, g.inputs.runway);
      var concept := GearConcept(c.config, c.gearType, c.wheelsPerMainLeg, c.wheelsNoseOrTail, geometry, tire, loads,
                                 checks, explanation, score, breakdown);
      if !concept.FieldsValid() then Err(ValidationError("gear_concept")) else Ok(Some(concept))
  }

  /** A concept that survives every step and the hard constraints. */
  predicate IsBuilt(g: GearGenerator, concept: GearConcept)
  {
    && concept.FieldsValid()
    && concept.config == Tricycle
    && concept.checks.propClearanceOk
    && (g.inputs.retractable ==> concept.gearType == Retractable)
    && concept.loads.FieldsValid()
    && concept.tireSuggestion.FieldsValid()
    && concept.loads.staticNoseOrTailLoadN + concept.loads.staticMainLoadTotalN == g.weightN
    && 5 <= |concept.explanation| <= 7
  }

  /**
   * `_build_concept`: the concept, or nothing when a hard constraint
   * rejects the configuration or any step raises. Every concept it returns
   * is a valid tricycle that clears the propeller and respects the
   * retraction requirement: no taildragger survives, because reading its
   * margin fails.
   */
  function BuildConcept(g: GearGenerator, c: CandidateConfig): (r: Option<GearConcept>)
    ensures r.Some? ==> IsBuilt(g, r.value)
    ensures r.Some? ==> r.value.gearType == c.gearType && r.value.wheelCountMain == c.wheelsPerMainLeg
    ensures r.Some? ==> r.value.geometry.strokeM.Mid() == c.strokeM
    ensures c.config == Taildragger ==> r.None?
    ensures g.inputs.retractable && c.gearType == Fixed ==> r.None?
  {
    match TryBuildConcept(g, c)
    case Ok(concept) => concept
    case Err(_) => None
  }

  /** A tricycle passes every step up to the checks whenever its split works and its fraction is in range. */
  lemma TricycleReachesChecks(g: GearGenerator, c: CandidateConfig)
    requires c.config == Tricycle && c.wheelsPerMainLeg >= 1 && c.strokeM > 0.0 && g.touchdownEnergy >= 0.0
    requires LoadSplitFor(g, c.config).Ok? && 0.0 <= LoadSplitFor(g, c.config).value.noseFraction <= 1.0
    requires LoadSplitFor(g, c.config).value.mainLoadTotalN >= 0.0
    ensures CalculateLoads(g, c).Ok?
    ensures CalculateTireSuggestion(g, c, CalculateLoads(g, c).value).Ok?
  {
    var loads := CalculateLoads(g, c).value;
    assert loads.staticMainLoadTotalN == LoadSplitFor(g, c.config).value.mainLoadTotalN;
    assert loads.staticMainLoadPerWheelN * ((2 * c.wheelsPerMainLeg) as real) == loads.staticMainLoadTotalN;
    PerWheelNonNegative(loads.staticMainLoadPerWheelN, (2 * c.wheelsPerMainLeg) as real, loads.staticMainLoadTotalN);
  }

  lemma PerWheelNonNegative(perWheel: real, wheels: real, total: real)
    requires wheels > 0.0 && total >= 0.0 && perWheel * wheels == total
    ensures perWheel >= 0.0
  {
    if perWheel < 0.0 {
      MulStrictMonotone(perWheel, 0.0, wheels);
    }
  }

  // ---------------------------------------------------------------------
  // Candidate selection
  // ---------------------------------------------------------------------

  /** The concepts built from `configs`, in enumeration order. */
  function BuiltConcepts(g: GearGenerator, configs: seq<CandidateConfig>): (built: seq<GearConcept>)
    ensures |built| <= |configs|
    ensures forall concept :: concept in built ==> IsBuilt(g, concept)
  {
    if configs == [] then []
    else
      var rest := BuiltConcepts(g, configs[..|configs| - 1]);
      match BuildConcept(g, configs[|configs| - 1])
      case Some(concept) => rest + [concept]
      case None => rest
  }

  /** One more configuration adds its concept, if it builds, at the end. */
  lemma BuiltConceptsStep(g: GearGenerator, configs: seq<CandidateConfig>, i: nat)
    requires i < |configs|
    ensures BuiltConcepts(g, configs[..i + 1])
         == BuiltConcepts(g, configs[..i]) + (if BuildConcept(g, configs[i]).Some? then [BuildConcept(g, configs[i]).value] else [])
  {
    var prefix := configs[..i + 1];
    assert prefix[..|prefix| - 1] == configs[..i] && prefix[|prefix| - 1] == configs[i];
  }

  /** `key=score, reverse=True`: a sorts before b when its score is higher. */
  function HigherScore(a: GearConcept, b: GearConcept): bool
  {
    a.score > b.score
  }

  lemma HigherScoreIsStrictWeakOrder()
    ensures Sorting.StrictWeakOrder(HigherScore)
  {
  }

  /** Scores never increase along the sequence. */
  ghost predicate ScoresNonIncreasing(concepts: seq<GearConcept>)
  {
    forall i, j :: 0 <= i < j < |concepts| ==> concepts[i].score >= concepts[j].score
  }

  /**
   * The selection policy: the best six passing concepts when at least six
   * pass, all passing ones when three to five pass, else the best three to
   * six concepts whatever their checks.
   */
  function SelectConcepts(sorted: seq<GearConcept>): (selected: seq<GearConcept>)
    ensures |selected| <= 6
    ensures forall concept :: concept in selected ==> concept in sorted
    ensures |PassingConcepts(sorted)| >= 3 ==> forall concept :: concept in selected ==> concept.AllChecksPassed()
    ensures |PassingConcepts(sorted)| < 3 ==> selected == SliceTo(sorted, 6)
    ensures 3 <= |PassingConcepts(sorted)| <= 6 ==> selected == PassingConcepts(sorted)
    ensures |selected| >= 3 || selected == sorted
    ensures selected == if |PassingConcepts(sorted)| >= 3 then SliceTo(PassingConcepts(sorted), 6) else SliceTo(sorted, 6)
  {
    var passing := PassingConcepts(sorted);
    if |passing| >= 6 then passing[..6]
    else if |passing| >= 3 then passing
    else
      var keep := if 6 < |sorted| then 6 else |sorted|;
      SliceTo(sorted, if 3 > keep then 3 else keep)
  }

  /** `xs` is `ys` with some elements left out, the rest in their order. */
  ghost predicate IsSubsequence<T>(xs: seq<T>, ys: seq<T>)
    decreases |ys|
  {
    xs == [] || (ys != [] && if xs[0] == ys[0] then IsSubsequence(xs[1..], ys[1..]) else IsSubsequence(xs, ys[1..]))
  }

  lemma {:induction false} PrefixIsSubsequence<T>(xs: seq<T>, ys: seq<T>, n: nat)
    requires n <= |xs| && IsSubsequence(xs, ys)
    ensures IsSubsequence(xs[..n], ys)
    decreases |ys|
  {
    if n > 0 {
      assert xs[..n][0] == xs[0];
      if xs[0] == ys[0] {
        assert xs[..n][1..] == xs[1..][..n - 1];
        PrefixIsSubsequence(xs[1..], ys[1..], n - 1);
      } else {
        PrefixIsSubsequence(xs, ys[1..], n);
      }
    }
  }

  lemma {:induction false} SelfIsSubsequence<T>(xs: seq<T>)
    ensures IsSubsequence(xs, xs)
    decreases |xs|
  {
    if xs != [] {
      SelfIsSubsequence(xs[1..]);
    }
  }

  lemma {:induction false} PassingIsSubsequence(concepts: seq<GearConcept>)
    ensures IsSubsequence(PassingConcepts(concepts), concepts)
    decreases |concepts|
  {
    if concepts != [] {
      PassingIsSubsequence(concepts[1..]);
      var rest := PassingConcepts(concepts[1..]);
      if concepts[0].AllChecksPassed() {
        assert ([concepts[0]] + rest)[1..] == rest;
      } else {
        assert PassingConcepts(concepts) == rest;
        if rest != [] {
          assert rest[0] in rest;
          assert rest[0] != concepts[0];
        }
      }
    }
  }

  /** The selection keeps the score order: it is the sorted list with some concepts left out. */
  lemma SelectionKeepsOrder(sorted: seq<GearConcept>)
    ensures IsSubsequence(SelectConcepts(sorted), sorted)
  {
    var passing := PassingConcepts(sorted);
    var selected := SelectConcepts(sorted);
    if |passing| >= 3 {
      PassingIsSubsequence(sorted);
      PrefixIsSubsequence(passing, sorted, |selected|);
    } else {
      SelfIsSubsequence(sorted);
      PrefixIsSubsequence(sorted, sorted, |selected|);
    }
  }

  /** What `generate_candidates` returns. */
  function Candidates(g: GearGenerator): seq<GearConcept>
  {
    SelectConcepts(Sorting.SortBy(BuiltConcepts(g, ValidConfigs(g)), HigherScore))
  }

  /** The loop of `generate_candidates`: build each configuration, keep the ones that come back. */
  method BuildAll(g: GearGenerator, configs: seq<CandidateConfig>) returns (candidates: seq<GearConcept>)
    ensures candidates == BuiltConcepts(g, configs)
  {
    candidates := [];
    var i := 0;
    while i < |configs|
      invariant 0 <= i <= |configs|
      invariant candidates == BuiltConcepts(g, configs[..i])
    {
      var concept := BuildConcept(g, configs[i]);
      if concept.Some? {
        candidates := candidates + [concept.value];
      }
      BuiltConceptsStep(g, configs, i);
      i := i + 1;
    }
    assert configs[..i] == configs;
  }

  /** `generate_candidates`: build every configuration, sort by score (best first), select. */
  method GenerateCandidates(g: GearGenerator) returns (concepts: seq<GearConcept>)
    ensures concepts == Candidates(g)
  {
    var configs := GetValidConfigs(g);
    var candidates := BuildAll(g, configs);
    var sorted := Sorting.SortBy(candidates, HigherScore);
    var passing := PassingConcepts(sorted);
    if |passing| >= 6 {
      concepts := passing[..6];
    } else if |passing| >= 3 {
      concepts := passing;
    } else {
      var keep := if 6 < |sorted| then 6 else |sorted|;
      concepts := SliceTo(sorted, if 3 > keep then 3 else keep);
    }
  }

  /** Filtering keeps the order of a sorted sequence. */
  lemma {:induction false} PassingConceptsNonIncreasing(s: seq<GearConcept>)
    requires ScoresNonIncreasing(s)
    ensures ScoresNonIncreasing(PassingConcepts(s))
  {
    if s != [] {
      assert ScoresNonIncreasing(s[1..]);
      PassingConceptsNonIncreasing(s[1..]);
      var rest := PassingConcepts(s[1..]);
      forall j | 0 <= j < |rest|
        ensures s[0].score >= rest[j].score
      {
        assert rest[j] in s[1..];
      }
    }
  }

  /**
   * The candidates: at most six, best score first, every one a built
   * tricycle that clears the propeller and is retractable when retraction
   * is required.
   */
  lemma CandidatesProperties(g: GearGenerator)
    ensures |Candidates(g)| <= 6
    ensures ScoresNonIncreasing(Candidates(g))
    ensures forall concept :: concept in Candidates(g) ==> IsBuilt(g, concept)
  {
    var built := BuiltConcepts(g, ValidConfigs(g));
    var sorted := Sorting.SortBy(built, HigherScore);
    HigherScoreIsStrictWeakOrder();
    Sorting.SortBySorted(built, HigherScore);
    assert ScoresNonIncreasing(sorted) by {
      forall i, j | 0 <= i < j < |sorted|
        ensures sorted[i].score >= sorted[j].score
      {
        assert !HigherScore(sorted[j], sorted[i]);
      }
    }
    forall concept | concept in sorted
      ensures IsBuilt(g, concept)
    {
      Sorting.SortByMembers(built, HigherScore, concept);
    }
    PassingConceptsNonIncreasing(sorted);
    var selected := Candidates(g);
    var passing := PassingConcepts(sorted);
    assert ScoresNonIncreasing(selected) by {
      if |passing| >= 3 {
        assert selected == passing || selected == passing[..6];
      } else {
        assert selected == sorted[..|selected|];
      }
    }
  }

  /** Concepts with equal scores keep the order in which they were built. */
  lemma CandidatesSortStable(g: GearGenerator, x: GearConcept)
    ensures var built := BuiltConcepts(g, ValidConfigs(g));
            Sorting.SameKeyRun(Sorting.SortBy(built, HigherScore), x, HigherScore)
            == Sorting.SameKeyRun(built, x, HigherScore)
  {
    HigherScoreIsStrictWeakOrder();
    Sorting.SortByStable(BuiltConcepts(g, ValidConfigs(g)), x, HigherScore);
  }

  // ---------------------------------------------------------------------
  // The recommendation
  // ---------------------------------------------------------------------

  /** The warnings: no passing concept, a sink rate above 3 m/s, a soft runway. */
  function Warnings(inputs: AircraftInputs, concepts: seq<GearConcept>): (warnings: seq<Warning>)
    ensures NoPassingConcept in warnings <==> forall c :: c in concepts ==> !c.AllChecksPassed()
    ensures HighSinkRate(inputs.sinkRateMps) in warnings <==> inputs.sinkRateMps > 3.0
    ensures SoftFieldTires(inputs.runway) in warnings <==> inputs.runway != Paved
    ensures |warnings| <= 3
  {
    var noPassing := if PassingConcepts(concepts) == [] then [NoPassingConcept] else [];
    var highSink := if inputs.sinkRateMps > 3.0 then [HighSinkRate(inputs.sinkRateMps)] else [];
    var softField := if inputs.runway == Grass || inputs.runway == Gravel then [SoftFieldTires(inputs.runway)] else [];
    assert PassingConcepts(concepts) != [] ==> PassingConcepts(concepts)[0] in PassingConcepts(concepts);
    assert SoftFieldTires(inputs.runway) !in noPassing + highSink;
    assert SoftFieldTires(inputs.runway) in softField <==> inputs.runway != Paved;
    noPassing + highSink + softField
  }

  /** The seven assumption lines, three of them carrying the generator's estimates. */
  function Assumptions(g: GearGenerator): (assumptions: seq<Assumption>)
    ensures |assumptions| == 7
    ensures assumptions[0] == FuselageLengthEstimate(g.fuselageLength)
    ensures assumptions[1] == CgHeightEstimate(g.cgHeight)
    ensures assumptions[2] == TouchdownEnergyEstimate(g.touchdownEnergy, g.inputs.sinkRateMps)
  {
    [FuselageLengthEstimate(g.fuselageLength),
     CgHeightEstimate(g.cgHeight),
     TouchdownEnergyEstimate(g.touchdownEnergy, g.inputs.sinkRateMps),
     RigidBodyStatics, SimplifiedDynamicLoads, ShockEfficiency80, Braking04G]
  }

  /**
   * `generate_result`: the candidates with the input summary, assumptions
   * and warnings. The result record demands one to ten concepts, so when
   * every configuration was discarded it fails validation.
   */
  method GenerateResult(g: GearGenerator) returns (r: Result<RecommendationResult>)
    ensures r.Err? <==> Candidates(g) == []
    ensures r.Err? ==> r.error.ValidationError?
    ensures r.Ok? ==> r.value.FieldsValid() && r.value.concepts == Candidates(g)
    ensures r.Ok? ==> r.value.warnings == Warnings(g.inputs, Candidates(g))
    ensures r.Ok? ==> r.value.assumptions == Assumptions(g)
    ensures r.Ok? ==> r.value.inputSummary.mlwKg == g.mlwKg && r.value.aircraftName == g.inputs.aircraftName
  {
    var concepts := GenerateCandidates(g);
    CandidatesProperties(g);
    var inputs := g.inputs;
    var summary := InputSummary(inputs.mtowKg, g.mlwKg, inputs.cgFwdM, inputs.cgAftM, inputs.landingSpeedMps,
                                inputs.sinkRateMps, inputs.runway, inputs.retractable);
    var result := RecommendationResult(inputs.aircraftName, summary, concepts, Assumptions(g), Warnings(inputs, concepts));
    if !result.FieldsValid() {
      r := Err(ValidationError("concepts"));
    } else {
      r := Ok(result);
    }
  }
}
