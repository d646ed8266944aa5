// models/outputs.py: the records a recommendation is made of, their field
// bounds (as predicates), and the read-only properties over them.
// Human-readable text (check descriptions, explanation bullets, warnings,
// assumption lines) is kept as enumerations carrying the numbers they embed.

module Outputs {
  import opened Wrappers
  import Inputs

  datatype GearConfig = Tricycle | Taildragger
  {
    /** The enum's string value, as passed to the wheelbase heuristic. */
    function Value(): (s: string)
      ensures s == "taildragger" <==> this == Taildragger
    {
      match this
      case Tricycle => "tricycle"
      case Taildragger => "taildragger"
    }
  }

  datatype GearType = Fixed | Retractable

  datatype GeometryRange = GeometryRange(min: real, max: real)
  {
    /** The midpoint: equally far from both ends. */
    function Mid(): (m: real)
      ensures m - min == max - m
      ensures min <= max ==> min <= m <= max
    {
      (min + max) / 2.0
    }

    /** The length of the range. */
    function Span(): (s: real)
      ensures min + s == max
      ensures min <= max ==> s >= 0.0
    {
      max - min
    }
  }

  datatype Geometry = Geometry(
    trackM: GeometryRange,
    wheelbaseM: GeometryRange,
    mainStrutLengthM: GeometryRange,
    noseOrTailStrutLengthM: GeometryRange,
    strokeM: GeometryRange)

  datatype TireSuggestion = TireSuggestion(
    requiredStaticLoadPerWheelN: real,
    requiredDynamicLoadPerWheelN: real,
    recommendedTireDiameterRangeM: GeometryRange,
    suggestedTireWidthM: Option<real>)
  {
    /** Field bounds: both required loads are non-negative. */
    predicate FieldsValid()
    {
      requiredStaticLoadPerWheelN >= 0.0 && requiredDynamicLoadPerWheelN >= 0.0
    }
  }

  datatype Loads = Loads(
    staticNoseOrTailLoadN: real,
    staticMainLoadTotalN: real,
    staticMainLoadPerWheelN: real,
    landingEnergyJ: real,
    requiredAvgForceN: real,
    noseLoadFraction: real)
  {
    /** Field bounds: energy and force non-negative, nose fraction in [0, 1]. */
    predicate FieldsValid()
    {
      landingEnergyJ >= 0.0 && requiredAvgForceN >= 0.0 && 0.0 <= noseLoadFraction <= 1.0
    }
  }

  /** A pass/fail check with the computed value and the threshold it is held to. */
  datatype CheckResult = CheckResult(passed: bool, value: real, limit: real)

  datatype Checks = Checks(
    tipBackMargin: CheckResult,
    noseOverMargin: CheckResult,
    groundClearanceOk: bool,
    lateralStabilityOk: bool,
    propClearanceOk: bool)

  datatype ScoreBreakdown = ScoreBreakdown(
    robustness: real, lowDrag: real, lowMass: real, simplicity: real, checksPenalty: real)
  {
    /** Field bounds: every component and the penalty lie in [0, 1]. */
    predicate FieldsValid()
    {
      && 0.0 <= robustness <= 1.0 && 0.0 <= lowDrag <= 1.0
      && 0.0 <= lowMass <= 1.0 && 0.0 <= simplicity <= 1.0
      && 0.0 <= checksPenalty <= 1.0
    }
  }

  /** The explanation sentences; the nose-load ones carry the percentage they print. */
  datatype Bullet =
    | TricycleRationale | TaildraggerRationale
    | FixedRationale | RetractableRationale
    | SingleWheelRationale | DualWheelRationale
    | GrassNote | GravelNote
    | NoseLoadIdeal(percent: real) | NoseLoadLow(percent: real) | NoseLoadHigh(percent: real)
    | MarginsOk | TipBackWarning | NoseOverWarning

  datatype GearConcept = GearConcept(
    config: GearConfig,
    gearType: GearType,
    wheelCountMain: int,
    wheelCountNoseOrTail: int,
    geometry: Geometry,
    tireSuggestion: TireSuggestion,
    loads: Loads,
    checks: Checks,
    explanation: seq<Bullet>,
    score: real,
    scoreBreakdown: ScoreBreakdown)
  {
    /** Field bounds of the concept record (its nested records are validated on their own). */
    predicate FieldsValid()
    {
      && 1 <= wheelCountMain <= 4
      && 1 <= wheelCountNoseOrTail <= 2
      && 0.0 <= score <= 1.0
      && scoreBreakdown.FieldsValid()
    }

    /** Every one of the five checks passed. */
    predicate AllChecksPassed()
    {
      && checks.tipBackMargin.passed
      && checks.noseOverMargin.passed
      && checks.groundClearanceOk
      && checks.lateralStabilityOk
      && checks.propClearanceOk
    }
  }

  /** The key inputs echoed back with a recommendation. */
  datatype InputSummary = InputSummary(
    mtowKg: real, mlwKg: real, cgFwdM: real, cgAftM: real,
    landingSpeedMps: real, sinkRateMps: real, runway: Inputs.RunwayType, retractableRequired: bool)

  /** The assumption lines; the first three carry the figures they print. */
  datatype Assumption =
    | FuselageLengthEstimate(lengthM: real)
    | CgHeightEstimate(heightM: real)
    | TouchdownEnergyEstimate(energyJ: real, sinkRateMps: real)
    | RigidBodyStatics
    | SimplifiedDynamicLoads
    | ShockEfficiency80
    | Braking04G

  datatype Warning =
    | NoPassingConcept
    | HighSinkRate(sinkRateMps: real)
    | SoftFieldTires(runway: Inputs.RunwayType)

  datatype RecommendationResult = RecommendationResult(
    aircraftName: string,
    inputSummary: InputSummary,
    concepts: seq<GearConcept>,
    assumptions: seq<Assumption>,
    warnings: seq<Warning>)
  {
    /** Field bounds: between one and ten concepts. */
    predicate FieldsValid()
    {
      1 <= |concepts| <= 10
    }
  }

  /**
   * `max(concepts, key=score)`: the first concept whose score is not beaten
   * by any other. A result always holds at least one concept.
   */
  function BestConcept(concepts: seq<GearConcept>): (best: GearConcept)
    requires |concepts| >= 1
    ensures best in concepts
    ensures forall c :: c in concepts ==> c.score <= best.score
  {
    concepts[BestIndex(concepts)]
  }

  /** Index of the first maximal score. */
  function BestIndex(concepts: seq<GearConcept>): (k: nat)
    requires |concepts| >= 1
    ensures k < |concepts|
    ensures forall i :: 0 <= i < |concepts| ==> concepts[i].score <= concepts[k].score
    ensures forall i :: 0 <= i < k ==> concepts[i].score < concepts[k].score
  {
    if |concepts| == 1 then 0
    else
      var k := BestIndex(concepts[..|concepts| - 1]);
      if concepts[|concepts| - 1].score > concepts[k].score then |concepts| - 1 else k
  }

  /** The concepts that pass every check, in their original order. */
  function PassingConcepts(concepts: seq<GearConcept>): (passing: seq<GearConcept>)
    ensures forall c :: c in passing <==> c in concepts && c.AllChecksPassed()
    ensures |passing| <= |concepts|
  {
    if concepts == [] then []
    else
      (if concepts[0].AllChecksPassed() then [concepts[0]] else []) + PassingConcepts(concepts[1..])
  }

  /** The filter distributes over concatenation, so it keeps the input order. */
  lemma {:induction false} PassingConceptsAppend(a: seq<GearConcept>, b: seq<GearConcept>)
    ensures PassingConcepts(a + b) == PassingConcepts(a) + PassingConcepts(b)
  {
    if a == [] {
      assert a + b == b;
    } else {
      assert (a + b)[0] == a[0] && (a + b)[1..] == a[1..] + b;
      PassingConceptsAppend(a[1..], b);
    }
  }
}
