// scoring/scorer.py: the four sub-scores (robustness, low drag, low mass,
// simplicity), the capped penalty for failed or marginal checks, and the
// final score as a penalised weighted average of the sub-scores.

module Scorer {
  import opened Builtins
  import opened Inputs
  import opened Outputs

  /** Class constants declared by the scorer; the penalty logic uses its own increments. */
  const FAILED_CHECK_PENALTY: real := 0.5
  const MARGINAL_CHECK_PENALTY: real := 0.8

  /** The scorer keeps the priorities and their normalised weights, both fixed at construction. */
  datatype GearScorer = GearScorer(priorities: DesignPriorities, weights: Weights)

  /** Construction: the weights are the normalised priorities, a distribution for valid priorities. */
  function NewGearScorer(priorities: DesignPriorities): (s: GearScorer)
    ensures s.priorities == priorities
    ensures s.weights == Normalized(priorities)
    ensures priorities.Valid() ==> s.weights.InUnitInterval() && s.weights.Sum() == 1.0
  {
    assert priorities.Valid() ==> Normalized(priorities).InUnitInterval() && Normalized(priorities).Sum() == 1.0 by {
      if priorities.Valid() { NormalizedIsDistribution(priorities); }
    }
    GearScorer(priorities, Normalized(priorities))
  }

  /** `max(0.0, min(1.0, score))`. */
  function Clamp01(score: real): (r: real)
    ensures 0.0 <= r <= 1.0
    ensures 0.0 <= score <= 1.0 ==> r == score
  {
    Max(0.0, Min(1.0, score))
  }

  // ----- robustness -----

  /** Robustness bonus for the track midpoint: 0.15 from 2.5 m, 0.10 from 2.0 m, 0.05 from 1.5 m. */
  function TrackBonus(trackMid: real): (b: real)
    ensures 0.0 <= b <= 0.15
  {
    if trackMid >= 2.5 then 0.15
    else if trackMid >= 2.0 then 0.10
    else if trackMid >= 1.5 then 0.05
    else 0.0
  }

  /** Robustness bonus for the stroke midpoint: 0.10 from 0.25 m, 0.05 from 0.18 m. */
  function StrokeBonus(strokeMid: real): (b: real)
    ensures 0.0 <= b <= 0.10
  {
    if strokeMid >= 0.25 then 0.10
    else if strokeMid >= 0.18 then 0.05
    else 0.0
  }

  /** On grass or gravel: 0.10 off below a 2.0 m track, 0.05 off below a 0.18 m stroke. */
  function SoftFieldDeduction(runwayType: RunwayType, trackMid: real, strokeMid: real): (d: real)
    ensures 0.0 <= d <= 0.15
    ensures runwayType == Paved ==> d == 0.0
  {
    if runwayType == Grass || runwayType == Gravel then
      (if trackMid < 2.0 then 0.10 else 0.0) + (if strokeMid < 0.18 then 0.05 else 0.0)
    else 0.0
  }

  /**
   * Robustness: base 0.5, +0.15 for fixed gear, +0.10 for a tricycle, plus
   * the track and stroke bonuses, less the soft-field deduction, clamped to
   * [0, 1]. The sum never leaves [0.35, 1.0], so the clamp never binds.
   */
  function ScoreRobustness(config: GearConfig, gearType: GearType, geometry: Geometry, runwayType: RunwayType)
    : (s: real)
    ensures 0.0 <= s <= 1.0
    ensures 0.35 <= s
  {
    var trackMid := geometry.trackM.Mid();
    var strokeMid := geometry.strokeM.Mid();
    var score := 0.5
      + (if gearType == Fixed then 0.15 else 0.0)
      + (if config == Tricycle then 0.10 else 0.0)
      + TrackBonus(trackMid)
      + StrokeBonus(strokeMid)
      - SoftFieldDeduction(runwayType, trackMid, strokeMid);
    Clamp01(score)
  }

  /** Robustness is non-decreasing in the track midpoint, all else fixed. */
  lemma RobustnessMonotoneInTrack(config: GearConfig, gearType: GearType, g1: Geometry, g2: Geometry,
                                  runwayType: RunwayType)
    requires g1.trackM.Mid() <= g2.trackM.Mid()
    requires g1.strokeM.Mid() == g2.strokeM.Mid()
    ensures ScoreRobustness(config, gearType, g1, runwayType) <= ScoreRobustness(config, gearType, g2, runwayType)
  {
  }

  /** Robustness is non-decreasing in the stroke midpoint, all else fixed. */
  lemma RobustnessMonotoneInStroke(config: GearConfig, gearType: GearType, g1: Geometry, g2: Geometry,
                                   runwayType: RunwayType)
    requires g1.strokeM.Mid() <= g2.strokeM.Mid()
    requires g1.trackM.Mid() == g2.trackM.Mid()
    ensures ScoreRobustness(config, gearType, g1, runwayType) <= ScoreRobustness(config, gearType, g2, runwayType)
  {
  }

  /** Fixed gear scores exactly 0.15 more robustness than retractable gear. */
  lemma RobustnessFixedBonus(config: GearConfig, geometry: Geometry, runwayType: RunwayType)
    ensures ScoreRobustness(config, Fixed, geometry, runwayType)
         == ScoreRobustness(config, Retractable, geometry, runwayType) + 0.15
  {
  }

  /** A soft field never raises robustness over a paved runway. */
  lemma RobustnessSoftFieldNotHigher(config: GearConfig, gearType: GearType, geometry: Geometry,
                                     runwayType: RunwayType)
    ensures ScoreRobustness(config, gearType, geometry, runwayType)
         <= ScoreRobustness(config, gearType, geometry, Paved)
  {
  }

  // ----- drag -----

  /** Drag bonus of a fixed main strut: 0.10 below 0.45 m, 0.05 below 0.55 m. */
  function DragStrutBonus(strutMid: real): (b: real)
    ensures 0.0 <= b <= 0.10
  {
    if strutMid < 0.45 then 0.10
    else if strutMid < 0.55 then 0.05
    else 0.0
  }

  /**
   * Low-drag score: base 0.5, +0.40 for retractable gear; fixed gear gets
   * +0.05 as a taildragger and the strut bonus instead; clamped to [0, 1].
   */
  function ScoreDrag(gearType: GearType, config: GearConfig, geometry: Geometry): (s: real)
    ensures 0.0 <= s <= 1.0
    ensures gearType == Fixed ==> 0.5 <= s <= 0.65
  {
    var score := 0.5 + (if gearType == Retractable then 0.40 else 0.0);
    var score' := if gearType == Fixed then
        score + (if config == Taildragger then 0.05 else 0.0)
              + DragStrutBonus(geometry.mainStrutLengthM.Mid())
      else score;
    Clamp01(score')
  }

  /** Any retractable concept scores exactly 0.9 on drag, whatever its configuration and geometry. */
  lemma RetractableDragExact(config: GearConfig, geometry: Geometry)
    ensures ScoreDrag(Retractable, config, geometry) == 0.9
  {
  }

  /** Retractable gear always beats fixed gear on drag. */
  lemma RetractableDragBeatsFixed(c1: GearConfig, g1: Geometry, c2: GearConfig, g2: Geometry)
    ensures ScoreDrag(Fixed, c1, g1) < ScoreDrag(Retractable, c2, g2)
  {
    RetractableDragExact(c2, g2);
  }

  // ----- mass -----

  /** Mass bonus of the main strut: 0.15 below 0.45 m, 0.10 below 0.55 m, 0.05 below 0.65 m. */
  function MassStrutBonus(strutMid: real): (b: real)
    ensures 0.0 <= b <= 0.15
  {
    if strutMid < 0.45 then 0.15
    else if strutMid < 0.55 then 0.10
    else if strutMid < 0.65 then 0.05
    else 0.0
  }

  /** Mass adjustment for the main load relative to 50 kN: +0.10, +0.05, 0 or -0.05. */
  function MassLoadAdjustment(staticMainLoadTotalN: real): (b: real)
    ensures -0.05 <= b <= 0.10
  {
    var loadRatio := staticMainLoadTotalN / 50000.0;
    if loadRatio < 0.8 then 0.10
    else if loadRatio < 1.2 then 0.05
    else if loadRatio > 1.5 then -0.05
    else 0.0
  }

  /**
   * Low-mass score: base 0.5, +0.20 for fixed gear, plus the strut bonus
   * and the load adjustment, clamped to [0, 1]; the sum stays in
   * [0.45, 0.95], so the clamp never binds.
   */
  function ScoreMass(gearType: GearType, geometry: Geometry, loads: Loads): (s: real)
    ensures 0.45 <= s <= 0.95
  {
    var score := 0.5
      + (if gearType == Fixed then 0.20 else 0.0)
      + MassStrutBonus(geometry.mainStrutLengthM.Mid())
      + MassLoadAdjustment(loads.staticMainLoadTotalN);
    Clamp01(score)
  }

  /** Shorter struts and lighter main loads never score worse on mass. */
  lemma MassAntitone(gearType: GearType, g1: Geometry, l1: Loads, g2: Geometry, l2: Loads)
    requires g1.mainStrutLengthM.Mid() <= g2.mainStrutLengthM.Mid()
    requires l1.staticMainLoadTotalN <= l2.staticMainLoadTotalN
    ensures ScoreMass(gearType, g2, l2) <= ScoreMass(gearType, g1, l1)
  {
    var r1 := l1.staticMainLoadTotalN / 50000.0;
    var r2 := l2.staticMainLoadTotalN / 50000.0;
    assert r1 <= r2;
  }

  /** Fixed gear scores exactly 0.20 more on mass than retractable gear. */
  lemma MassFixedBonus(geometry: Geometry, loads: Loads)
    ensures ScoreMass(Fixed, geometry, loads) == ScoreMass(Retractable, geometry, loads) + 0.20
  {
  }

  // ----- simplicity -----

  /**
   * Simplicity: base 0.5, +0.30 for fixed gear, +0.10 for a taildragger or
   * +0.05 for a tricycle, clamped to [0, 1].
   */
  function ScoreSimplicity(config: GearConfig, gearType: GearType): (s: real)
    ensures 0.0 <= s <= 1.0
  {
    var score := 0.5 + (if gearType == Fixed then 0.30 else 0.0);
    var score' := score + (match config case Taildragger => 0.10 case Tricycle => 0.05);
    Clamp01(score')
  }

  /** The four simplicity values; fixed beats retractable and taildragger beats tricycle. */
  lemma SimplicityTable()
    ensures ScoreSimplicity(Taildragger, Fixed) == 0.9
    ensures ScoreSimplicity(Tricycle, Fixed) == 0.85
    ensures ScoreSimplicity(Taildragger, Retractable) == 0.6
    ensures ScoreSimplicity(Tricycle, Retractable) == 0.55
  {
  }

  // ----- checks penalty -----

  /** Penalty for a margin check: 0.15 when it failed, 0.05 when it passed below 1.2 times its limit. */
  function MarginPenalty(check: CheckResult): (p: real)
    ensures !check.passed <==> p == 0.15
    ensures check.passed && check.value < check.limit * 1.2 <==> p == 0.05
    ensures p == 0.0 <==> check.passed && check.value >= check.limit * 1.2
  {
    if !check.passed then 0.15
    else if check.value < check.limit * 1.2 then 0.05
    else 0.0
  }

  /** The uncapped sum of the penalty increments. */
  function PenaltySum(checks: Checks): (sum: real)
    ensures 0.0 <= sum <= 0.85
  {
    MarginPenalty(checks.tipBackMargin)
    + MarginPenalty(checks.noseOverMargin)
    + (if !checks.groundClearanceOk then 0.20 else 0.0)
    + (if !checks.lateralStabilityOk then 0.10 else 0.0)
    + (if !checks.propClearanceOk then 0.25 else 0.0)
  }

  /**
   * Checks penalty: the sum of the increments, capped at 0.8. It is zero
   * exactly when every check passed and neither margin is marginal.
   */
  function ChecksPenalty(checks: Checks): (p: real)
    ensures 0.0 <= p <= 0.8
    ensures p == Min(0.8, PenaltySum(checks))
    ensures p == 0.0 <==>
              && checks.tipBackMargin.passed
              && checks.tipBackMargin.value >= checks.tipBackMargin.limit * 1.2
              && checks.noseOverMargin.passed
              && checks.noseOverMargin.value >= checks.noseOverMargin.limit * 1.2
              && checks.groundClearanceOk && checks.lateralStabilityOk && checks.propClearanceOk
  {
    var penalty := 0.0;
    var penalty1 := penalty + MarginPenalty(checks.tipBackMargin);
    var penalty2 := penalty1 + MarginPenalty(checks.noseOverMargin);
    var penalty3 := if !checks.groundClearanceOk then penalty2 + 0.20 else penalty2;
    var penalty4 := if !checks.lateralStabilityOk then penalty3 + 0.10 else penalty3;
    var penalty5 := if !checks.propClearanceOk then penalty4 + 0.25 else penalty4;
    Min(0.8, penalty5)
  }

  /** A failed check never lowers the penalty: failing the clearance adds 0.20 up to the cap. */
  lemma PenaltyMonotoneInFailures(checks: Checks)
    ensures ChecksPenalty(checks) <= ChecksPenalty(checks.(groundClearanceOk := false))
    ensures ChecksPenalty(checks) <= ChecksPenalty(checks.(lateralStabilityOk := false))
    ensures ChecksPenalty(checks) <= ChecksPenalty(checks.(propClearanceOk := false))
    ensures checks.groundClearanceOk ==>
              ChecksPenalty(checks.(groundClearanceOk := false)) == Min(0.8, PenaltySum(checks) + 0.20)
  {
  }

  /** Every check failed: the increments add to 0.85 and the cap holds the penalty at 0.8. */
  lemma PenaltyCapReached(tip: CheckResult, nose: CheckResult)
    requires !tip.passed && !nose.passed
    ensures PenaltySum(Checks(tip, nose, false, false, false)) == 0.85
    ensures ChecksPenalty(Checks(tip, nose, false, false, false)) == 0.8
  {
    assert MarginPenalty(tip) == 0.15 && MarginPenalty(nose) == 0.15;
  }

  // ----- overall -----

  /** Weights form a distribution and every sub-score lies in [0, 1]. */
  predicate IsConvexInput(weights: Weights, robustness: real, lowDrag: real, lowMass: real, simplicity: real)
  {
    && weights.InUnitInterval() && weights.Sum() == 1.0
    && 0.0 <= robustness <= 1.0 && 0.0 <= lowDrag <= 1.0
    && 0.0 <= lowMass <= 1.0 && 0.0 <= simplicity <= 1.0
  }

  /** The priority-weighted sum of the four sub-scores: a convex combination lies in [0, 1]. */
  function WeightedScore(weights: Weights, robustness: real, lowDrag: real, lowMass: real, simplicity: real)
    : (s: real)
    ensures IsConvexInput(weights, robustness, lowDrag, lowMass, simplicity) ==> 0.0 <= s <= 1.0
  {
    var a := weights.robustness * robustness;
    var b := weights.lowDrag * lowDrag;
    var c := weights.lowMass * lowMass;
    var d := weights.simplicity * simplicity;
    assert IsConvexInput(weights, robustness, lowDrag, lowMass, simplicity) ==> 0.0 <= a + b + c + d <= 1.0 by {
      if IsConvexInput(weights, robustness, lowDrag, lowMass, simplicity) {
        WeightedTermBounds(weights.robustness, robustness, a);
        WeightedTermBounds(weights.lowDrag, lowDrag, b);
        WeightedTermBounds(weights.lowMass, lowMass, c);
        WeightedTermBounds(weights.simplicity, simplicity, d);
      }
    }
    a + b + c + d
  }

  lemma WeightedTermBounds(w: real, x: real, p: real)
    requires 0.0 <= w && 0.0 <= x <= 1.0 && p == w * x
    ensures 0.0 <= p <= w
  {
    MulNonNegative(w, x);
    MulMonotone(x, 1.0, w);
    assert p == x * w;
  }

  /**
   * The weighted sum of the breakdown's sub-scores times (1 - penalty),
   * clamped to [0, 1]. For a weight distribution and a valid breakdown the
   * clamp never binds.
   */
  function FinalScore(weights: Weights, breakdown: ScoreBreakdown): (s: real)
    ensures 0.0 <= s <= 1.0
    ensures weights.InUnitInterval() && weights.Sum() == 1.0 && breakdown.FieldsValid() ==>
              s == WeightedScore(weights, breakdown.robustness, breakdown.lowDrag, breakdown.lowMass,
                                 breakdown.simplicity) * (1.0 - breakdown.checksPenalty)
  {
    var weightedScore := WeightedScore(weights, breakdown.robustness, breakdown.lowDrag, breakdown.lowMass,
                                       breakdown.simplicity);
    var finalScore := weightedScore * (1.0 - breakdown.checksPenalty);
    assert weights.InUnitInterval() && weights.Sum() == 1.0 && breakdown.FieldsValid() ==>
             Clamp01(finalScore) == finalScore by {
      if weights.InUnitInterval() && weights.Sum() == 1.0 && breakdown.FieldsValid() {
        PenalisedScoreUnclamped(weights, breakdown.robustness, breakdown.lowDrag, breakdown.lowMass,
                                breakdown.simplicity, breakdown.checksPenalty);
      }
    }
    Clamp01(finalScore)
  }

  /**
   * Score of a concept: the four sub-scores and the checks penalty in the
   * breakdown, and the weighted sum of the sub-scores times (1 - penalty),
   * clamped to [0, 1].
   */
  function ScoreConcept(scorer: GearScorer, config: GearConfig, gearType: GearType, checks: Checks,
                        loads: Loads, geometry: Geometry, runwayType: RunwayType): (r: (real, ScoreBreakdown))
    ensures 0.0 <= r.0 <= 1.0
    ensures r.1.FieldsValid()
    ensures r.1 == ScoreBreakdown(ScoreRobustness(config, gearType, geometry, runwayType),
                                  ScoreDrag(gearType, config, geometry),
                                  ScoreMass(gearType, geometry, loads),
                                  ScoreSimplicity(config, gearType),
                                  ChecksPenalty(checks))
    ensures r.0 == FinalScore(scorer.weights, r.1)
  {
    var robustness := ScoreRobustness(config, gearType, geometry, runwayType);
    var lowDrag := ScoreDrag(gearType, config, geometry);
    var lowMass := ScoreMass(gearType, geometry, loads);
    var simplicity := ScoreSimplicity(config, gearType);
    var checksPenalty := ChecksPenalty(checks);
    var breakdown := ScoreBreakdown(robustness, lowDrag, lowMass, simplicity, checksPenalty);
    (FinalScore(scorer.weights, breakdown), breakdown)
  }

  /**
   * With the scorer built from valid priorities the final clamp never
   * binds, and a concept with no penalty scores exactly the weighted
   * average of its sub-scores.
   */
  lemma NoPenaltyScoreIsWeightedAverage(priorities: DesignPriorities, config: GearConfig, gearType: GearType,
                                        checks: Checks, loads: Loads, geometry: Geometry, runwayType: RunwayType)
    requires priorities.Valid()
    requires ChecksPenalty(checks) == 0.0
    ensures var r := ScoreConcept(NewGearScorer(priorities), config, gearType, checks, loads, geometry, runwayType);
            r.0 == WeightedScore(Normalized(priorities), r.1.robustness, r.1.lowDrag, r.1.lowMass, r.1.simplicity)
  {
    NormalizedIsDistribution(priorities);
  }

  lemma PenalisedScoreUnclamped(w: Weights, robustness: real, lowDrag: real, lowMass: real, simplicity: real,
                                penalty: real)
    requires IsConvexInput(w, robustness, lowDrag, lowMass, simplicity) && 0.0 <= penalty <= 1.0
    ensures var x := WeightedScore(w, robustness, lowDrag, lowMass, simplicity) * (1.0 - penalty);
            Clamp01(x) == x
  {
    var avg := WeightedScore(w, robustness, lowDrag, lowMass, simplicity);
    UnitProduct(avg, 1.0 - penalty, avg * (1.0 - penalty));
  }

  lemma UnitProduct(a: real, f: real, p: real)
    requires 0.0 <= a <= 1.0 && 0.0 <= f <= 1.0 && p == a * f
    ensures 0.0 <= p <= 1.0
  {
    MulNonNegative(a, f);
    calc {
      p;
    ==
      a * f;
    <= { MulMonotone(a, 1.0, f); }
      1.0 * f;
    ==
      f;
    }
  }
}
