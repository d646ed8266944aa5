// tire_catalog/matcher.py: scores catalog tires against the loads, pressure
// limit and size targets of one wheel position, and chooses main and
// nose/tail tires for a gear concept.
//
// A tire is kept when its rated load covers the dynamic requirement times the
// runway's safety factor and its inflation does not exceed the pressure limit;
// its score is the product of a load, a pressure and a dimension score, plus
// an application-chart bonus, capped at 1. Python's ZeroDivisionError (a zero
// load requirement or a zero target bound) is the `Err` of a `Result`.

module TireMatcher {
  import opened Wrappers
  import opened Builtins
  import Sorting
  import opened Strings
  import opened TireModels
  import Inputs
  import Outputs

  const LBS_PER_N: real := 0.224809
  const N_PER_LBS: real := 4.44822
  const KPA_TO_PSI: real := 0.145038

  // ---------------------------------------------------------------------
  // Unit conversions

  function NToLbf(newtons: real): (lbf: real)
    ensures lbf / LBS_PER_N == newtons
    ensures newtons >= 0.0 ==> 0.0 <= lbf <= newtons
  {
    newtons * LBS_PER_N
  }

  function LbfToN(lbf: real): (newtons: real)
    ensures newtons / N_PER_LBS == lbf
    ensures lbf >= 0.0 ==> newtons >= lbf
  {
    lbf * N_PER_LBS
  }

  function KpaToPsi(kpa: real): (psi: real)
    ensures psi / KPA_TO_PSI == kpa
    ensures kpa >= 0.0 ==> 0.0 <= psi <= kpa
  {
    kpa * KPA_TO_PSI
  }

  function InToM(inches: real): (metres: real)
    ensures metres / METRES_PER_INCH == inches
  {
    inches * METRES_PER_INCH
  }

  function MToIn(metres: real): (inches: real)
    ensures inches * METRES_PER_INCH == metres
  {
    metres / METRES_PER_INCH
  }

  /** The figures the unit tests check: 1000 N, 100 lbf and 100 kPa. */
  lemma ConversionExamples()
    ensures 224.0 < NToLbf(1000.0) < 226.0
    ensures 444.0 < LbfToN(100.0) < 446.0
    ensures 14.0 < KpaToPsi(100.0) < 15.0
  {
  }

  /**
   * Newtons to pounds-force and back: the two constants are not exact
   * inverses, so the round trip moves every non-zero load, but by less than
   * 0.01 N for loads up to 90 kN.
   */
  lemma NewtonRoundTrip(x: real)
    requires -90000.0 <= x <= 90000.0
    ensures -0.01 < LbfToN(NToLbf(x)) - x < 0.01
    ensures x != 0.0 ==> LbfToN(NToLbf(x)) != x
  {
    var k := LBS_PER_N * N_PER_LBS;
    assert k == 0.99999988998;
    assert LbfToN(NToLbf(x)) - x == x * (k - 1.0);
    if x >= 0.0 {
      MulMonotone(x, 90000.0, 1.0 - k);
    } else {
      MulMonotone(-x, 90000.0, 1.0 - k);
    }
  }

  /** Inches to metres and back is exact in both directions. */
  lemma InchRoundTrip(x: real)
    ensures MToIn(InToM(x)) == x
    ensures InToM(MToIn(x)) == x
  {
  }

  /** The specification's own metric properties agree with the matcher's conversions. */
  lemma TireSpecUnitsAgree(spec: TireSpec)
    ensures spec.RatedLoadN() == LbfToN(spec.ratedLoadLbs)
    ensures spec.OutsideDiameterM().Some? ==> MToIn(spec.OutsideDiameterM().value) == spec.outsideDiameterIn.value
    ensures spec.SectionWidthM().Some? ==> MToIn(spec.SectionWidthM().value) == spec.sectionWidthIn.value
  {
  }

  // ---------------------------------------------------------------------
  // Load score

  /** `SAFETY_FACTORS.get(runway, 1.10)`; every runway type has an entry. */
  function SafetyFactor(runway: Inputs.RunwayType): (sf: real)
    ensures sf >= 1.1
    ensures sf == 1.1 <==> runway == Inputs.Paved
    ensures runway == Inputs.Gravel ==> sf == 1.25
  {
    match runway
    case Paved => 1.10
    case Grass => 1.20
    case Gravel => 1.25
  }

  /** Score of a load margin: 15-40 % is ideal, tighter or larger margins score less. */
  function MarginScore(margin: real): (score: real)
    ensures 0.6 <= score <= 1.0
    ensures score == 1.0 <==> 0.15 <= margin <= 0.40
    ensures score == 0.7 <==> margin < 0.10
    ensures score == 0.6 <==> margin > 0.60
  {
    if 0.15 <= margin <= 0.40 then 1.0
    else if 0.10 <= margin < 0.15 then 0.9
    else if 0.40 < margin <= 0.60 then 0.85
    else if margin < 0.10 then 0.7
    else 0.6
  }

  datatype LoadScore = LoadScore(score: real, margin: real, reasons: seq<Reason>)

  /** `_score_tire_for_load`: zero for an insufficient tire, else the margin's score. */
  function ScoreTireForLoad(tire: TireSpec, requiredLoadLbs: real, safetyFactor: real): (r: Result<LoadScore>)
    ensures tire.ratedLoadLbs < requiredLoadLbs * safetyFactor ==> r == Ok(LoadScore(0.0, -1.0, [InsufficientLoad]))
    ensures r.Err? <==> tire.ratedLoadLbs >= requiredLoadLbs * safetyFactor && requiredLoadLbs == 0.0
    ensures r.Err? ==> r.error == ZeroDivisionError
    ensures r.Ok? && tire.ratedLoadLbs >= requiredLoadLbs * safetyFactor ==>
              && requiredLoadLbs * (1.0 + r.value.margin) == tire.ratedLoadLbs
              && r.value.score == MarginScore(r.value.margin)
              && r.value.reasons == [LoadMargin(r.value.margin)]
  {
    if tire.ratedLoadLbs < requiredLoadLbs * safetyFactor then
      Ok(LoadScore(0.0, -1.0, [InsufficientLoad]))
    else if requiredLoadLbs == 0.0 then
      Err(ZeroDivisionError)
    else
      var margin := (tire.ratedLoadLbs - requiredLoadLbs) / requiredLoadLbs;
      Ok(LoadScore(MarginScore(margin), margin, [LoadMargin(margin)]))
  }

  /** A positive requirement carried `x` times over, reaching `factor` times, has `x` at least `factor`. */
  lemma CarriedFactorAtLeast(required: real, x: real, factor: real, rated: real)
    requires required > 0.0 && required * x == rated && rated >= required * factor
    ensures x >= factor
  {
    if x < factor {
      MulStrictMonotone(x, factor, required);
    }
  }

  /**
   * A tire that passes the safety factor has a margin of at least the
   * factor's excess (10 % or more), so the "tight margin" score of 0.7 is
   * never given for a positive requirement.
   */
  lemma TightMarginUnreachable(tire: TireSpec, requiredLoadLbs: real, runway: Inputs.RunwayType)
    requires requiredLoadLbs > 0.0
    requires tire.ratedLoadLbs >= requiredLoadLbs * SafetyFactor(runway)
    ensures ScoreTireForLoad(tire, requiredLoadLbs, SafetyFactor(runway)).Ok?
    ensures ScoreTireForLoad(tire, requiredLoadLbs, SafetyFactor(runway)).value.margin >= SafetyFactor(runway) - 1.0
    ensures ScoreTireForLoad(tire, requiredLoadLbs, SafetyFactor(runway)).value.score != 0.7
  {
    var sf := SafetyFactor(runway);
    var r := ScoreTireForLoad(tire, requiredLoadLbs, sf);
    assert r.Ok?;
    var margin := r.value.margin;
    assert requiredLoadLbs * (1.0 + margin) == tire.ratedLoadLbs;
    CarriedFactorAtLeast(requiredLoadLbs, 1.0 + margin, sf, tire.ratedLoadLbs);
  }

  // ---------------------------------------------------------------------
  // Pressure score

  /** The tire's rated inflation is known and above a given limit. */
  predicate ExceedsLimit(tire: TireSpec, limitPsi: Option<real>)
  {
    limitPsi.Some? && tire.ratedInflationPsi.Some? && tire.ratedInflationPsi.value > limitPsi.value
  }

  /** `_score_tire_for_pressure`: zero exactly for a tire above the limit. */
  function ScoreTireForPressure(tire: TireSpec, limitPsi: Option<real>): (r: (real, seq<Reason>))
    ensures r.0 == 0.0 <==> ExceedsLimit(tire, limitPsi)
    ensures r.0 == 0.8 <==> limitPsi.Some? && tire.ratedInflationPsi.None?
    ensures r.0 == 0.0 || r.0 == 0.8 || r.0 == 1.0
    ensures limitPsi.None? ==> r == (1.0, [])
  {
    if limitPsi.None? then (1.0, [])
    else if tire.ratedInflationPsi.None? then (0.8, [PressureDataUnavailable])
    else if tire.ratedInflationPsi.value > limitPsi.value then
      (0.0, [ExceedsPressureLimit(tire.ratedInflationPsi.value, limitPsi.value)])
    else (1.0, [WithinPressureLimits])
  }

  // ---------------------------------------------------------------------
  // Dimension score

  predicate IsSoftField(runway: Inputs.RunwayType)
  {
    runway == Inputs.Grass || runway == Inputs.Gravel
  }

  predicate InRange(x: real, target: (real, real))
  {
    target.0 <= x <= target.1
  }

  /** The factor a diameter contributes, and the reason recorded. */
  function DiameterFactor(diam: real, target: (real, real), soft: bool): (r: Result<(real, Reason)>)
    ensures r.Ok? ==> r.value.0 >= 0.5
    ensures r.Err? ==> r.error == ZeroDivisionError
  {
    var (lo, hi) := target;
    if lo <= diam <= hi then Ok((1.0, DiameterInRange))
    else if diam < lo then
      if lo == 0.0 then Err(ZeroDivisionError)
      else Ok((Max(0.5, diam / lo), DiameterUndersized))
    else if soft then Ok((0.95, LargerDiameterSoftField))
    else if diam == 0.0 then Err(ZeroDivisionError)
    else Ok((Max(0.7, hi / diam), DiameterOversized))
  }

  /**
   * The diameter factor fails exactly on a division by a zero bound; it is 1
   * inside the target and, for positive bounds, strictly below 1 outside it.
   */
  lemma DiameterFactorProperties(diam: real, target: (real, real), soft: bool)
    ensures DiameterFactor(diam, target, soft).Err?
            <==> (diam < target.0 && target.0 == 0.0) || (target.1 < diam && target.0 <= diam && !soft && diam == 0.0)
    ensures InRange(diam, target) ==> DiameterFactor(diam, target, soft) == Ok((1.0, DiameterInRange))
    ensures 0.0 < target.0 && 0.0 < target.1 && !InRange(diam, target)
            ==> DiameterFactor(diam, target, soft).Ok? && DiameterFactor(diam, target, soft).value.0 < 1.0
  {
    var (lo, hi) := target;
    if diam < lo && 0.0 < lo {
      DivBelowOne(diam, lo);
    } else if hi < diam && 0.0 < hi {
      DivBelowOne(hi, diam);
    }
  }

  /** The factor a section width contributes, and the reasons recorded. */
  function WidthFactor(width: real, target: (real, real), soft: bool): (r: Result<(real, seq<Reason>)>)
    ensures r.Ok? ==> r.value.0 >= 0.4
    ensures r.Err? ==> r.error == ZeroDivisionError
  {
    var (lo, hi) := target;
    if lo <= width <= hi then Ok((1.0, []))
    else if width < lo then
      if lo == 0.0 then Err(ZeroDivisionError)
      else if soft then Ok((Max(0.4, width / lo * 0.8), [WidthNarrowSoftField]))
      else Ok((Max(0.6, width / lo), []))
    else if soft then Ok((1.05, [WiderTireSoftField]))
    else Ok((0.9, []))
  }

  /**
   * The width factor fails exactly on a division by a zero lower bound; it is
   * 1 inside the target, 1.05 for a wider tire on a soft field, and on a paved
   * runway never above 1 (for a non-negative lower bound) and strictly below 1
   * outside a positive target.
   */
  lemma WidthFactorProperties(width: real, target: (real, real), soft: bool)
    ensures WidthFactor(width, target, soft).Err? <==> width < target.0 && target.0 == 0.0
    ensures InRange(width, target) ==> WidthFactor(width, target, soft) == Ok((1.0, []))
    ensures soft && target.0 <= width && target.1 < width ==> WidthFactor(width, target, soft) == Ok((1.05, [WiderTireSoftField]))
    ensures !soft && 0.0 < target.0 && !InRange(width, target)
            ==> WidthFactor(width, target, soft).Ok? && WidthFactor(width, target, soft).value.0 < 1.0
    ensures !soft && WidthFactor(width, target, soft).Ok? && 0.0 <= target.0 ==> WidthFactor(width, target, soft).value.0 <= 1.0
  {
    var (lo, hi) := target;
    if width < lo && 0.0 < lo {
      DivBelowOne(width, lo);
    }
  }

  /** On a soft field, 2 % for an outside diameter above 15 in and 2 % for a width above 6 in. */
  function SoftFieldBonus(tire: TireSpec, soft: bool): (b: real)
    ensures 1.0 <= b
    ensures !soft ==> b == 1.0
  {
    var largeDiameter := tire.outsideDiameterIn.Some? && tire.outsideDiameterIn.value > 15.0;
    var wide := tire.sectionWidthIn.Some? && tire.sectionWidthIn.value > 6.0;
    if soft && largeDiameter && wide then 1.02 * 1.02
    else if soft && (largeDiameter || wide) then 1.02
    else 1.0
  }

  /** The diameter step, skipped (factor 1) without a target or a known diameter. */
  function DiameterStep(tire: TireSpec, target: Option<(real, real)>, soft: bool): (r: Result<(real, seq<Reason>)>)
    ensures r.Ok? ==> r.value.0 >= 0.5
    ensures r.Err? ==> r.error == ZeroDivisionError
  {
    if target.Some? && tire.OutsideDiameterM().Some? then
      var f :- DiameterFactor(tire.OutsideDiameterM().value, target.value, soft);
      Ok((f.0, [f.1]))
    else Ok((1.0, []))
  }

  /** The width step, skipped (factor 1) without a target or a known width. */
  function WidthStep(tire: TireSpec, target: Option<(real, real)>, soft: bool): (r: Result<(real, seq<Reason>)>)
    ensures r.Ok? ==> r.value.0 >= 0.4
    ensures r.Err? ==> r.error == ZeroDivisionError
  {
    if target.Some? && tire.SectionWidthM().Some? then
      WidthFactor(tire.SectionWidthM().value, target.value, soft)
    else Ok((1.0, []))
  }

  /** A running score and its reasons after one step: scaled by the step's factor, its reasons appended. */
  function StepApplied(score: real, reasons: seq<Reason>, step: Result<(real, seq<Reason>)>): (r: Result<(real, seq<Reason>)>)
    ensures r.Err? <==> step.Err?
    ensures r.Err? ==> r.error == step.error
    ensures step.Ok? && score > 0.0 && step.value.0 > 0.0 ==> r.value.0 > 0.0
  {
    var s :- step;
    assert score > 0.0 && s.0 > 0.0 ==> score * s.0 > 0.0 by {
      if score > 0.0 && s.0 > 0.0 { MulPositive(score, s.0); }
    }
    Ok((score * s.0, reasons + s.1))
  }

  /** Applying a step that succeeds multiplies the score by its factor and appends its reasons. */
  lemma StepAppliedOk(score: real, reasons: seq<Reason>, factor: real, added: seq<Reason>)
    ensures StepApplied(score, reasons, Ok((factor, added))) == Ok((score * factor, reasons + added))
  {
    var r := StepApplied(score, reasons, Ok((factor, added)));
    assert r.Ok?;
    assert r.value.1 == reasons + added;
    assert r.value.0 == score * factor;
  }

  /** A running score scaled by a factor. */
  function Scaled(score: real, factor: real): (s: real)
    ensures score > 0.0 && factor > 0.0 ==> s > 0.0
  {
    assert score > 0.0 && factor > 0.0 ==> score * factor > 0.0 by {
      if score > 0.0 && factor > 0.0 { MulPositive(score, factor); }
    }
    score * factor
  }

  /**
   * A score built from a diameter step, a width step and a bonus: 1 scaled by
   * each step in turn and then by the bonus, capped at 1; the first failing
   * step fails it.
   */
  function ScoreFromSteps(diameter: Result<(real, seq<Reason>)>, width: Result<(real, seq<Reason>)>, bonus: real)
    : (r: Result<(real, seq<Reason>)>)
    ensures r.Err? <==> diameter.Err? || width.Err?
    ensures r.Err? ==> r.error == (if diameter.Err? then diameter.error else width.error)
    ensures r.Ok? ==> r.value.0 <= 1.0
    ensures diameter.Ok? && width.Ok? && diameter.value.0 > 0.0 && width.value.0 > 0.0 && bonus > 0.0
            ==> r.Ok? && r.value.0 > 0.0
  {
    var afterDiameter :- StepApplied(1.0, [], diameter);
    var afterWidth :- StepApplied(afterDiameter.0, afterDiameter.1, width);
    Ok((Min(1.0, Scaled(afterWidth.0, bonus)), afterWidth.1))
  }

  /**
   * Two successful steps give the capped product of their factors and the
   * bonus, with the diameter reasons before the width reasons.
   */
  lemma StepsProduct(diameter: Result<(real, seq<Reason>)>, width: Result<(real, seq<Reason>)>, bonus: real)
    requires diameter.Ok? && width.Ok?
    ensures ScoreFromSteps(diameter, width, bonus).Ok?
    ensures ScoreFromSteps(diameter, width, bonus).value.0 == Min(1.0, diameter.value.0 * width.value.0 * bonus)
    ensures ScoreFromSteps(diameter, width, bonus).value.1 == diameter.value.1 + width.value.1
  {
    assert [] + diameter.value.1 == diameter.value.1;
    MulEqual(1.0 * diameter.value.0, diameter.value.0, width.value.0);
    MulEqual(1.0 * diameter.value.0 * width.value.0, diameter.value.0 * width.value.0, bonus);
  }

  /**
   * What `_score_tire_for_dimensions` returns: a score that starts at 1, is
   * scaled by the diameter and the width factors and the soft-field bonus,
   * and is capped at 1; a zero bound fails with a division by zero.
   */
  function DimensionScore(tire: TireSpec, targetDiameterM: Option<(real, real)>, targetWidthM: Option<(real, real)>,
                          runway: Inputs.RunwayType): (r: Result<(real, seq<Reason>)>)
    ensures r.Ok? ==> 0.0 < r.value.0 <= 1.0
    ensures r.Err? ==> r.error == ZeroDivisionError
  {
    ScoreFromSteps(DiameterStep(tire, targetDiameterM, IsSoftField(runway)), WidthStep(tire, targetWidthM, IsSoftField(runway)),
                   SoftFieldBonus(tire, IsSoftField(runway)))
  }

  /** Steps of factor 1 and a bonus of at least 1 leave the capped score at 1. */
  lemma StepsNeutral(diameter: Result<(real, seq<Reason>)>, width: Result<(real, seq<Reason>)>, bonus: real)
    requires diameter.Ok? && diameter.value.0 == 1.0
    requires width.Ok? && width.value.0 == 1.0
    requires bonus >= 1.0
    ensures ScoreFromSteps(diameter, width, bonus).Ok?
    ensures ScoreFromSteps(diameter, width, bonus).value.0 == 1.0
  {
    StepsProduct(diameter, width, bonus);
  }

  /**
   * Steps of factor at most 1, one of them below 1, and no bonus give a
   * capped score below 1.
   */
  lemma StepsPenalised(diameter: Result<(real, seq<Reason>)>, width: Result<(real, seq<Reason>)>, bonus: real)
    requires diameter.Ok? && 0.0 < diameter.value.0 <= 1.0
    requires width.Ok? && 0.0 < width.value.0 <= 1.0
    requires diameter.value.0 < 1.0 || width.value.0 < 1.0
    requires bonus == 1.0
    ensures ScoreFromSteps(diameter, width, bonus).Ok?
    ensures ScoreFromSteps(diameter, width, bonus).value.0 < 1.0
  {
    var d, w := diameter.value.0, width.value.0;
    if d < 1.0 {
      MulStrictMonotone(d, 1.0, w);
    } else {
      MulStrictMonotone(w, 1.0, d);
    }
    MulByOne(d * w, bonus);
    StepsProduct(diameter, width, bonus);
  }

  /** A known diameter inside its target (or no target) gives a diameter step of factor 1. */
  lemma DiameterStepInRange(tire: TireSpec, target: Option<(real, real)>, soft: bool)
    requires target.Some? && tire.OutsideDiameterM().Some? ==> InRange(tire.OutsideDiameterM().value, target.value)
    ensures DiameterStep(tire, target, soft).Ok? && DiameterStep(tire, target, soft).value.0 == 1.0
  {
    if target.Some? && tire.OutsideDiameterM().Some? {
      DiameterFactorProperties(tire.OutsideDiameterM().value, target.value, soft);
    }
  }

  /** A known width inside its target (or no target) gives a width step of factor 1. */
  lemma WidthStepInRange(tire: TireSpec, target: Option<(real, real)>, soft: bool)
    requires target.Some? && tire.SectionWidthM().Some? ==> InRange(tire.SectionWidthM().value, target.value)
    ensures WidthStep(tire, target, soft).Ok? && WidthStep(tire, target, soft).value.0 == 1.0
  {
    if target.Some? && tire.SectionWidthM().Some? {
      WidthFactorProperties(tire.SectionWidthM().value, target.value, soft);
    }
  }

  /** No penalty for a tire whose known dimensions lie in their targets. */
  lemma DimensionScoreInRange(tire: TireSpec, targetDiameterM: Option<(real, real)>, targetWidthM: Option<(real, real)>,
                              runway: Inputs.RunwayType)
    requires targetDiameterM.Some? && tire.OutsideDiameterM().Some? ==> InRange(tire.OutsideDiameterM().value, targetDiameterM.value)
    requires targetWidthM.Some? && tire.SectionWidthM().Some? ==> InRange(tire.SectionWidthM().value, targetWidthM.value)
    ensures DimensionScore(tire, targetDiameterM, targetWidthM, runway).Ok?
    ensures DimensionScore(tire, targetDiameterM, targetWidthM, runway).value.0 == 1.0
  {
    DiameterStepInRange(tire, targetDiameterM, IsSoftField(runway));
    WidthStepInRange(tire, targetWidthM, IsSoftField(runway));
    StepsNeutral(DiameterStep(tire, targetDiameterM, IsSoftField(runway)), WidthStep(tire, targetWidthM, IsSoftField(runway)),
                 SoftFieldBonus(tire, IsSoftField(runway)));
  }

  /**
   * On a paved runway with a positive target, the diameter step never raises
   * the score, and lowers it for a known diameter outside the target.
   */
  lemma DiameterStepPaved(tire: TireSpec, target: Option<(real, real)>)
    requires target.Some? ==> 0.0 < target.value.0 && 0.0 < target.value.1
    ensures DiameterStep(tire, target, false).Ok? && DiameterStep(tire, target, false).value.0 <= 1.0
    ensures target.Some? && tire.OutsideDiameterM().Some? && !InRange(tire.OutsideDiameterM().value, target.value)
            ==> DiameterStep(tire, target, false).value.0 < 1.0
  {
    if target.Some? && tire.OutsideDiameterM().Some? {
      DiameterFactorProperties(tire.OutsideDiameterM().value, target.value, false);
    }
  }

  /**
   * On a paved runway with a positive lower bound, the width step never
   * raises the score, and lowers it for a known width outside the target.
   */
  lemma WidthStepPaved(tire: TireSpec, target: Option<(real, real)>)
    requires target.Some? ==> 0.0 < target.value.0
    ensures WidthStep(tire, target, false).Ok? && WidthStep(tire, target, false).value.0 <= 1.0
    ensures target.Some? && tire.SectionWidthM().Some? && !InRange(tire.SectionWidthM().value, target.value)
            ==> WidthStep(tire, target, false).value.0 < 1.0
  {
    if target.Some? && tire.SectionWidthM().Some? {
      WidthFactorProperties(tire.SectionWidthM().value, target.value, false);
    }
  }

  /**
   * On a paved runway with positive targets, a diameter or a width outside
   * its target scores strictly below 1.
   */
  lemma PavedOutOfRangePenalised(tire: TireSpec, targetDiameterM: Option<(real, real)>, targetWidthM: Option<(real, real)>)
    requires targetDiameterM.Some? ==> 0.0 < targetDiameterM.value.0 && 0.0 < targetDiameterM.value.1
    requires targetWidthM.Some? ==> 0.0 < targetWidthM.value.0
    requires || (targetDiameterM.Some? && tire.OutsideDiameterM().Some? && !InRange(tire.OutsideDiameterM().value, targetDiameterM.value))
             || (targetWidthM.Some? && tire.SectionWidthM().Some? && !InRange(tire.SectionWidthM().value, targetWidthM.value))
    ensures DimensionScore(tire, targetDiameterM, targetWidthM, Inputs.Paved).Ok?
    ensures DimensionScore(tire, targetDiameterM, targetWidthM, Inputs.Paved).value.0 < 1.0
  {
    DiameterStepPaved(tire, targetDiameterM);
    WidthStepPaved(tire, targetWidthM);
    StepsPenalised(DiameterStep(tire, targetDiameterM, false), WidthStep(tire, targetWidthM, false), SoftFieldBonus(tire, false));
  }

  /** The soft-field block of `_score_tire_for_dimensions`: on a soft field, two 2 % bonuses applied in turn. */
  method ApplySoftFieldBonus(score: real, tire: TireSpec, soft: bool) returns (s: real)
    ensures s == Scaled(score, SoftFieldBonus(tire, soft))
  {
    s := score;
    if soft {
      var largeDiameter := tire.outsideDiameterIn.Some? && tire.outsideDiameterIn.value > 15.0;
      var wide := tire.sectionWidthIn.Some? && tire.sectionWidthIn.value > 6.0;
      if largeDiameter {
        s := s * 1.02;
      }
      if wide {
        s := s * 1.02;
      }
    }
  }

  /** The diameter block of `_score_tire_for_dimensions`: scales the running score and records why. */
  method ApplyDiameter(score: real, reasons: seq<Reason>, tire: TireSpec, target: Option<(real, real)>, soft: bool)
    returns (r: Result<(real, seq<Reason>)>)
    ensures r == StepApplied(score, reasons, DiameterStep(tire, target, soft))
  {
    if target.Some? && tire.OutsideDiameterM().Some? {
      var diameter := DiameterFactor(tire.OutsideDiameterM().value, target.value, soft);
      if diameter.Err? {
        assert DiameterStep(tire, target, soft) == Err(ZeroDivisionError);
        return Err(ZeroDivisionError);
      }
      var factor, reason := diameter.value.0, diameter.value.1;
      assert DiameterStep(tire, target, soft) == Ok((factor, [reason]));
      StepAppliedOk(score, reasons, factor, [reason]);
      r := Ok((score * factor, reasons + [reason]));
    } else {
      assert DiameterStep(tire, target, soft) == Ok((1.0, []));
      StepAppliedOk(score, reasons, 1.0, []);
      assert reasons + [] == reasons && score * 1.0 == score;
      r := Ok((score, reasons));
    }
  }

  /** The width block of `_score_tire_for_dimensions`. */
  method ApplyWidth(score: real, reasons: seq<Reason>, tire: TireSpec, target: Option<(real, real)>, soft: bool)
    returns (r: Result<(real, seq<Reason>)>)
    ensures r == StepApplied(score, reasons, WidthStep(tire, target, soft))
  {
    if target.Some? && tire.SectionWidthM().Some? {
      var width := WidthFactor(tire.SectionWidthM().value, target.value, soft);
      if width.Err? {
        assert WidthStep(tire, target, soft) == Err(ZeroDivisionError);
        return Err(ZeroDivisionError);
      }
      assert WidthStep(tire, target, soft) == Ok(width.value);
      StepAppliedOk(score, reasons, width.value.0, width.value.1);
      r := Ok((score * width.value.0, reasons + width.value.1));
    } else {
      assert WidthStep(tire, target, soft) == Ok((1.0, []));
      StepAppliedOk(score, reasons, 1.0, []);
      assert reasons + [] == reasons && score * 1.0 == score;
      r := Ok((score, reasons));
    }
  }

  /** `_score_tire_for_dimensions`: multiplies a running score by each factor in turn, then caps it at 1. */
  method ScoreTireForDimensions(tire: TireSpec, targetDiameterM: Option<(real, real)>, targetWidthM: Option<(real, real)>,
                                runway: Inputs.RunwayType) returns (r: Result<(real, seq<Reason>)>)
    ensures r == DimensionScore(tire, targetDiameterM, targetWidthM, runway)
  {
    var score := 1.0;
    var reasons: seq<Reason> := [];
    var soft := IsSoftField(runway);
    var afterDiameter := ApplyDiameter(score, reasons, tire, targetDiameterM, soft);
    if afterDiameter.Err? {
      return Err(ZeroDivisionError);
    }
    score, reasons := afterDiameter.value.0, afterDiameter.value.1;
    var afterWidth := ApplyWidth(score, reasons, tire, targetWidthM, soft);
    if afterWidth.Err? {
      return Err(ZeroDivisionError);
    }
    score, reasons := afterWidth.value.0, afterWidth.value.1;
    score := ApplySoftFieldBonus(score, tire, soft);
    r := Ok((Min(1.0, score), reasons));
  }

  // ---------------------------------------------------------------------
  // Application-chart bonus

  const COMMON_GA_SIZES: set<string> := {"6.00-6", "5.00-5", "6.50-8", "7.00-6", "8.00-6"}

  /** Either upper-cased name contains the other (an empty aircraft name matches every row). */
  predicate ModelMatches(app: ApplicationRow, aircraftUpper: string)
  {
    Contains(aircraftUpper, Upper(app.model)) || Contains(Upper(app.model), aircraftUpper)
  }

  /** The row lists, for this wheel position, a non-empty size equal to the tire's. */
  predicate ChartSizeMatches(app: ApplicationRow, tireSize: string, isMain: bool)
  {
    if isMain then app.mainTireSize.Some? && app.mainTireSize.value != [] && Upper(app.mainTireSize.value) == tireSize
    else app.auxTireSize.Some? && app.auxTireSize.value != [] && Upper(app.auxTireSize.value) == tireSize
  }

  predicate ChartMatches(app: ApplicationRow, aircraftUpper: string, tireSize: string, isMain: bool)
  {
    ModelMatches(app, aircraftUpper) && ChartSizeMatches(app, tireSize, isMain)
  }

  /** The first row matching both the aircraft and the tire. */
  function FirstChartMatch(apps: seq<ApplicationRow>, aircraftUpper: string, tireSize: string, isMain: bool)
    : (r: Option<ApplicationRow>)
    ensures r.Some? ==> r.value in apps && ChartMatches(r.value, aircraftUpper, tireSize, isMain)
    ensures r.None? <==> forall app :: app in apps ==> !ChartMatches(app, aircraftUpper, tireSize, isMain)
  {
    if apps == [] then None
    else if ChartMatches(apps[0], aircraftUpper, tireSize, isMain) then Some(apps[0])
    else FirstChartMatch(apps[1..], aircraftUpper, tireSize, isMain)
  }

  /** One step of the search from index `i`: the row there, if it matches, else the search from `i + 1`. */
  lemma FirstChartMatchAt(apps: seq<ApplicationRow>, i: int, aircraftUpper: string, tireSize: string, isMain: bool)
    requires 0 <= i < |apps|
    ensures FirstChartMatch(apps[i..], aircraftUpper, tireSize, isMain)
            == if ChartMatches(apps[i], aircraftUpper, tireSize, isMain) then Some(apps[i])
               else FirstChartMatch(apps[i + 1..], aircraftUpper, tireSize, isMain)
  {
    assert apps[i..][0] == apps[i];
    assert apps[i..][1..] == apps[i + 1..];
  }

  /** The common-size test, with and without turning `X` into `x`. */
  predicate IsCommonGaSize(tireSize: string)
  {
    ReplaceChar(tireSize, 'X', 'x') in COMMON_GA_SIZES || tireSize in COMMON_GA_SIZES
  }

  predicate NoLowerX(s: string)
  {
    forall i :: 0 <= i < |s| ==> s[i] != 'x'
  }

  /** No common size contains an `x`, so the `X`-to-`x` variant of the test never adds a size. */
  lemma CommonGaSizeReplaceRedundant(tireSize: string)
    ensures IsCommonGaSize(tireSize) <==> tireSize in COMMON_GA_SIZES
  {
    var replaced := ReplaceChar(tireSize, 'X', 'x');
    if replaced in COMMON_GA_SIZES {
      assert NoLowerX("6.00-6") && NoLowerX("5.00-5") && NoLowerX("6.50-8") && NoLowerX("7.00-6") && NoLowerX("8.00-6");
      assert NoLowerX(replaced);
      assert forall i :: 0 <= i < |tireSize| ==> replaced[i] != 'x';
      assert replaced == tireSize;
    }
  }

  /** What `_score_tire_for_application` returns. */
  function ApplicationBonus(tire: TireSpec, aircraftName: string, mtowKg: real, apps: seq<ApplicationRow>, isMain: bool)
    : (r: (real, seq<Reason>))
    ensures r.0 == 0.0 || r.0 == 0.03 || r.0 == 0.15
    ensures r.0 == 0.15 <==> exists app :: app in apps && ChartMatches(app, Upper(aircraftName), Upper(tire.size), isMain)
    ensures r.0 == 0.03 <==>
              && apps != []
              && (forall app :: app in apps ==> !ChartMatches(app, Upper(aircraftName), Upper(tire.size), isMain))
              && mtowKg < 2000.0 && Upper(tire.size) in COMMON_GA_SIZES
  {
    CommonGaSizeReplaceRedundant(Upper(tire.size));
    if apps == [] then (0.0, [])
    else
      match FirstChartMatch(apps, Upper(aircraftName), Upper(tire.size), isMain)
      case Some(app) => (0.15, [MatchesApplicationChart(app.model)])
      case None =>
        if mtowKg < 2000.0 && IsCommonGaSize(Upper(tire.size)) then (0.03, [CommonLightGaSize]) else (0.0, [])
  }

  /** With no aircraft name, every row's model matches: only the size decides. */
  lemma EmptyNameMatchesEveryModel(app: ApplicationRow)
    ensures ModelMatches(app, Upper(""))
  {
    assert StartsWith(Upper(app.model), []);
  }

  /** `_score_tire_for_application`: scans the rows and returns at the first match. */
  method ScoreTireForApplication(tire: TireSpec, aircraftName: string, mtowKg: real, apps: seq<ApplicationRow>, isMain: bool)
    returns (bonus: real, reasons: seq<Reason>)
    ensures bonus == ApplicationBonus(tire, aircraftName, mtowKg, apps, isMain).0
    ensures reasons == ApplicationBonus(tire, aircraftName, mtowKg, apps, isMain).1
  {
    if apps == [] {
      return 0.0, [];
    }
    var aircraftUpper := Upper(aircraftName);
    var tireSize := Upper(tire.size);
    var i := 0;
    while i < |apps|
      invariant 0 <= i <= |apps|
      invariant FirstChartMatch(apps, aircraftUpper, tireSize, isMain) == FirstChartMatch(apps[i..], aircraftUpper, tireSize, isMain)
    {
      FirstChartMatchAt(apps, i, aircraftUpper, tireSize, isMain);
      var app := apps[i];
      var modelMatch := Contains(aircraftUpper, Upper(app.model)) || Contains(Upper(app.model), aircraftUpper);
      if modelMatch {
        if isMain && app.mainTireSize.Some? && app.mainTireSize.value != [] {
          if Upper(app.mainTireSize.value) == tireSize {
            return 0.15, [MatchesApplicationChart(app.model)];
          }
        } else if !isMain && app.auxTireSize.Some? && app.auxTireSize.value != [] {
          if Upper(app.auxTireSize.value) == tireSize {
            return 0.15, [MatchesApplicationChart(app.model)];
          }
        }
      }
      i := i + 1;
    }
    bonus, reasons := 0.0, [];
    if mtowKg < 2000.0 {
      if ReplaceChar(tireSize, 'X', 'x') in COMMON_GA_SIZES || tireSize in COMMON_GA_SIZES {
        bonus, reasons := 0.03, [CommonLightGaSize];
      }
    }
  }

  // ---------------------------------------------------------------------
  // Matching

  /**
   * The arguments of `match_tires`. Its defaults are no pressure limit, no
   * targets, an empty aircraft name, an MTOW of 0, no application rows, the
   * main position and five results.
   */
  datatype MatchRequest = MatchRequest(
    requiredDynamicLoadLbs: real,
    requiredStaticLoadLbs: real,
    runway: Inputs.RunwayType,
    pressureLimitPsi: Option<real>,
    targetDiameterM: Option<(real, real)>,
    targetWidthM: Option<(real, real)>,
    aircraftName: string,
    mtowKg: real,
    applications: Option<seq<ApplicationRow>>,
    isMain: bool,
    maxResults: int)
  {
    /** `applications or []`. */
    function Rows(): seq<ApplicationRow>
    {
      if applications.Some? then applications.value else []
    }
  }

  /** The tire carries the factored dynamic load and respects the pressure limit. */
  predicate Eligible(tire: TireSpec, req: MatchRequest)
  {
    tire.ratedLoadLbs >= req.requiredDynamicLoadLbs * SafetyFactor(req.runway)
    && !ExceedsLimit(tire, req.pressureLimitPsi)
  }

  /** `min(1, load * pressure * dimensions + bonus)`: in (0, 1] for positive scores. */
  function CombinedScore(loadScore: real, pressureScore: real, dimensionScore: real, bonus: real): (s: real)
    requires loadScore > 0.0 && pressureScore > 0.0 && dimensionScore > 0.0 && bonus >= 0.0
    ensures 0.0 < s <= 1.0
    ensures s == 1.0 || s == loadScore * pressureScore * dimensionScore + bonus
    ensures loadScore * pressureScore * dimensionScore + bonus <= 1.0 ==> s == loadScore * pressureScore * dimensionScore + bonus
    ensures loadScore * pressureScore * dimensionScore + bonus >= 1.0 ==> s == 1.0
  {
    TriplePositive(loadScore, pressureScore, dimensionScore);
    Min(1.0, loadScore * pressureScore * dimensionScore + bonus)
  }

  /**
   * A match for the request: an eligible tire, a score in (0, 1], the
   * request's loads, and the margin of its rated load over the dynamic one.
   */
  predicate IsMatchFor(m: MatchedTire, req: MatchRequest)
  {
    && Eligible(m.tire, req)
    && m.FieldsValid() && m.score > 0.0
    && m.requiredDynamicLoadLbs == req.requiredDynamicLoadLbs
    && m.requiredStaticLoadLbs == req.requiredStaticLoadLbs
    && req.requiredDynamicLoadLbs * (1.0 + m.marginLoad) == m.tire.ratedLoadLbs
  }

  /**
   * The match's score and reasons are the tire's four partial results for
   * the request: load, pressure, dimensions and application, combined.
   */
  predicate ScoredFromParts(m: MatchedTire, req: MatchRequest)
  {
    var load := ScoreTireForLoad(m.tire, req.requiredDynamicLoadLbs, SafetyFactor(req.runway));
    var pressure := ScoreTireForPressure(m.tire, req.pressureLimitPsi);
    var dim := DimensionScore(m.tire, req.targetDiameterM, req.targetWidthM, req.runway);
    var app := ApplicationBonus(m.tire, req.aircraftName, req.mtowKg, req.Rows(), req.isMain);
    && load.Ok? && dim.Ok? && load.value.score > 0.0 && pressure.0 > 0.0
    && m.score == CombinedScore(load.value.score, pressure.0, dim.value.0, app.0)
    && m.reasons == load.value.reasons + pressure.1 + dim.value.1 + app.1
  }

  /** The match record of one pass, from the four partial scores and their reasons. */
  function BuildMatch(tire: TireSpec, req: MatchRequest, load: LoadScore, pressure: (real, seq<Reason>),
                      dimensions: (real, seq<Reason>), application: (real, seq<Reason>)): (m: MatchedTire)
    requires Eligible(tire, req)
    requires load.score > 0.0 && pressure.0 > 0.0 && dimensions.0 > 0.0 && application.0 >= 0.0
    requires req.requiredDynamicLoadLbs * (1.0 + load.margin) == tire.ratedLoadLbs
    ensures m.tire == tire && IsMatchFor(m, req)
  {
    MatchedTire(tire, load.margin, req.requiredDynamicLoadLbs, req.requiredStaticLoadLbs,
                load.reasons + pressure.1 + dimensions.1 + application.1,
                CombinedScore(load.score, pressure.0, dimensions.0, application.0))
  }

  /**
   * The rest of one pass for a tire that carries the load and respects the
   * pressure limit: the dimension and application scores, combined.
   */
  function CompleteMatch(tire: TireSpec, req: MatchRequest, load: LoadScore, pressure: (real, seq<Reason>))
    : (r: Result<MatchedTire>)
    requires Eligible(tire, req)
    requires load.score > 0.0 && pressure.0 > 0.0
    requires req.requiredDynamicLoadLbs * (1.0 + load.margin) == tire.ratedLoadLbs
    ensures r.Err? ==> r.error == ZeroDivisionError
    ensures r.Ok? ==> r.value.tire == tire && IsMatchFor(r.value, req)
  {
    var dim :- DimensionScore(tire, req.targetDiameterM, req.targetWidthM, req.runway);
    Ok(BuildMatch(tire, req, load, pressure, dim, ApplicationBonus(tire, req.aircraftName, req.mtowKg, req.Rows(), req.isMain)))
  }

  /** One pass of the matching loop: the tire's match, `None` when it is skipped. */
  function MatchTire(tire: TireSpec, req: MatchRequest): (r: Result<Option<MatchedTire>>)
    ensures r.Err? ==> r.error == ZeroDivisionError
    ensures r.Ok? ==> (r.value.Some? <==> Eligible(tire, req))
    ensures r.Ok? && r.value.Some? ==> r.value.value.tire == tire && IsMatchFor(r.value.value, req)
    ensures r.Ok? && r.value.Some? ==> ScoredFromParts(r.value.value, req)
  {
    var load :- ScoreTireForLoad(tire, req.requiredDynamicLoadLbs, SafetyFactor(req.runway));
    if load.score == 0.0 then Ok(None)
    else
      var pressure := ScoreTireForPressure(tire, req.pressureLimitPsi);
      if pressure.0 == 0.0 then Ok(None)
      else
        var m :- CompleteMatch(tire, req, load, pressure);
        Ok(Some(m))
  }

  /** The matches the loop collects, in catalog order, before sorting. */
  function ScoredMatches(specs: seq<TireSpec>, req: MatchRequest): (r: Result<seq<MatchedTire>>)
    ensures r.Err? ==> r.error == ZeroDivisionError
    ensures r.Ok? ==> forall m :: m in r.value ==> m.tire in specs && IsMatchFor(m, req)
    ensures r.Ok? ==> forall m :: m in r.value ==> ScoredFromParts(m, req)
    ensures r.Ok? ==> forall t :: t in specs && Eligible(t, req) ==> exists m :: m in r.value && m.tire == t
  {
    if specs == [] then Ok([])
    else
      var init := specs[..|specs| - 1];
      var rest :- ScoredMatches(init, req);
      var m :- MatchTire(specs[|specs| - 1], req);
      assert forall t :: t in specs ==> t in init || t == specs[|specs| - 1];
      Ok(if m.Some? then rest + [m.value] else rest)
  }

  /** A failure on a prefix of the catalog is a failure on the whole catalog. */
  lemma {:induction false} ScoredMatchesPrefixErr(specs: seq<TireSpec>, n: nat, req: MatchRequest)
    requires n <= |specs|
    requires ScoredMatches(specs[..n], req).Err?
    ensures ScoredMatches(specs, req) == Err(ZeroDivisionError)
    decreases |specs| - n
  {
    if n < |specs| {
      assert specs[..n + 1][..n] == specs[..n];
      assert ScoredMatches(specs[..n + 1], req).Err?;
      ScoredMatchesPrefixErr(specs, n + 1, req);
    } else {
      assert specs[..n] == specs;
    }
  }

  /** `key=score, reverse=True`: a sorts before b when its score is higher. */
  function HigherMatchScore(a: MatchedTire, b: MatchedTire): bool
  {
    a.score > b.score
  }

  /** What `match_tires` returns: the eligible tires, best score first, cut to `max_results`. */
  function MatchTiresSpec(specs: seq<TireSpec>, req: MatchRequest): (r: Result<seq<MatchedTire>>)
    ensures r.Err? ==> r.error == ZeroDivisionError
  {
    var all :- ScoredMatches(specs, req);
    Ok(SliceTo(Sorting.SortBy(all, HigherMatchScore), req.maxResults))
  }

  /** Scores never increase along the sequence. */
  ghost predicate MatchScoresNonIncreasing(matches: seq<MatchedTire>)
  {
    forall i, j :: 0 <= i < j < |matches| ==> matches[i].score >= matches[j].score
  }

  /**
   * Sorting matches best score first and keeping the first `maxResults`:
   * exactly `min(maxResults, |all|)` of them, scores never increasing, each
   * one of the matches, none left out scoring above one kept, and all of
   * them when the cut keeps everything.
   */
  lemma SortedCutProperties(all: seq<MatchedTire>, maxResults: int)
    ensures maxResults >= 0 ==>
              |SliceTo(Sorting.SortBy(all, HigherMatchScore), maxResults)| == if maxResults <= |all| then maxResults else |all|
    ensures MatchScoresNonIncreasing(SliceTo(Sorting.SortBy(all, HigherMatchScore), maxResults))
    ensures forall m :: m in SliceTo(Sorting.SortBy(all, HigherMatchScore), maxResults) ==> m in all
    ensures forall m, k :: m in all && m !in SliceTo(Sorting.SortBy(all, HigherMatchScore), maxResults)
                           && 0 <= k < |SliceTo(Sorting.SortBy(all, HigherMatchScore), maxResults)|
                           ==> m.score <= SliceTo(Sorting.SortBy(all, HigherMatchScore), maxResults)[k].score
    ensures maxResults >= |all| ==> forall m :: m in all ==> m in SliceTo(Sorting.SortBy(all, HigherMatchScore), maxResults)
  {
    var result := SliceTo(Sorting.SortBy(all, HigherMatchScore), maxResults);
    assert Sorting.StrictWeakOrder(HigherMatchScore);
    Sorting.SortedCut(all, HigherMatchScore, maxResults);
    forall i, j | 0 <= i < j < |result|
      ensures result[i].score >= result[j].score
    {
      assert !HigherMatchScore(result[j], result[i]);
    }
    forall m, k | m in all && m !in result && 0 <= k < |result|
      ensures m.score <= result[k].score
    {
      assert !HigherMatchScore(m, result[k]);
    }
  }

  /**
   * Sorting and cutting a set of matches for catalog tires keeps their
   * properties: exactly `min(max_results, |all|)` of them, best score first,
   * each still a match for a catalog tire, none left out scoring above one
   * kept, and every eligible tire when the cut keeps everything.
   */
  lemma CutMatchesProperties(all: seq<MatchedTire>, specs: seq<TireSpec>, req: MatchRequest)
    requires forall m :: m in all ==> m.tire in specs && IsMatchFor(m, req) && ScoredFromParts(m, req)
    requires forall t :: t in specs && Eligible(t, req) ==> exists m :: m in all && m.tire == t
    requires |all| <= |specs|
    ensures req.maxResults >= 0 ==>
              |SliceTo(Sorting.SortBy(all, HigherMatchScore), req.maxResults)| == if req.maxResults <= |all| then req.maxResults else |all|
    ensures MatchScoresNonIncreasing(SliceTo(Sorting.SortBy(all, HigherMatchScore), req.maxResults))
    ensures forall m :: m in SliceTo(Sorting.SortBy(all, HigherMatchScore), req.maxResults) ==>
              m.tire in specs && IsMatchFor(m, req) && ScoredFromParts(m, req)
    ensures forall m, k :: m in all && m !in SliceTo(Sorting.SortBy(all, HigherMatchScore), req.maxResults)
                           && 0 <= k < |SliceTo(Sorting.SortBy(all, HigherMatchScore), req.maxResults)|
                           ==> m.score <= SliceTo(Sorting.SortBy(all, HigherMatchScore), req.maxResults)[k].score
    ensures req.maxResults >= |specs| ==>
              forall t :: t in specs && Eligible(t, req) ==>
                exists m :: m in SliceTo(Sorting.SortBy(all, HigherMatchScore), req.maxResults) && m.tire == t
  {
    var result := SliceTo(Sorting.SortBy(all, HigherMatchScore), req.maxResults);
    SortedCutProperties(all, req.maxResults);
    forall m | m in result
      ensures m.tire in specs && IsMatchFor(m, req) && ScoredFromParts(m, req)
    {
      assert m in all;
    }
    if req.maxResults >= |specs| {
      forall t | t in specs && Eligible(t, req)
        ensures exists m :: m in result && m.tire == t
      {
        var m :| m in all && m.tire == t;
        assert m in result;
      }
    }
  }

  /**
   * The matches: exactly `min(max_results, number of matches)` of them, best
   * score first; each a match for a catalog tire (it carries the dynamic load
   * times the safety factor, respects the pressure limit and scores in
   * (0, 1]) whose score combines its partial scores; no match left out
   * scores above one kept; and, when the cut keeps everything, every such
   * tire is among them.
   */
  lemma MatchTiresProperties(specs: seq<TireSpec>, req: MatchRequest)
    requires MatchTiresSpec(specs, req).Ok?
    ensures req.maxResults >= 0 ==>
              |MatchTiresSpec(specs, req).value|
              == if req.maxResults <= |ScoredMatches(specs, req).value| then req.maxResults else |ScoredMatches(specs, req).value|
    ensures req.maxResults >= 0 ==> |MatchTiresSpec(specs, req).value| <= req.maxResults
    ensures MatchScoresNonIncreasing(MatchTiresSpec(specs, req).value)
    ensures forall m :: m in MatchTiresSpec(specs, req).value ==> m.tire in specs && IsMatchFor(m, req)
    ensures forall m :: m in MatchTiresSpec(specs, req).value ==> ScoredFromParts(m, req)
    ensures forall m, k :: m in ScoredMatches(specs, req).value && m !in MatchTiresSpec(specs, req).value
                           && 0 <= k < |MatchTiresSpec(specs, req).value|
                           ==> m.score <= MatchTiresSpec(specs, req).value[k].score
    ensures req.maxResults >= |specs| ==>
              forall t :: t in specs && Eligible(t, req) ==> exists m :: m in MatchTiresSpec(specs, req).value && m.tire == t
  {
    var all := ScoredMatches(specs, req).value;
    assert MatchTiresSpec(specs, req).value == SliceTo(Sorting.SortBy(all, HigherMatchScore), req.maxResults);
    ScoredMatchesLength(specs, req);
    CutMatchesProperties(all, specs, req);
  }

  /** The loop keeps at most one match per catalog tire. */
  lemma {:induction false} ScoredMatchesLength(specs: seq<TireSpec>, req: MatchRequest)
    requires ScoredMatches(specs, req).Ok?
    ensures |ScoredMatches(specs, req).value| <= |specs|
  {
    if specs != [] {
      ScoredMatchesLength(specs[..|specs| - 1], req);
    }
  }

  /** With a positive load requirement and positive targets, matching never divides by zero. */
  lemma {:induction false} MatchTiresNoDivisionByZero(specs: seq<TireSpec>, req: MatchRequest)
    requires req.requiredDynamicLoadLbs > 0.0
    requires req.targetDiameterM.Some? ==> 0.0 < req.targetDiameterM.value.0 && 0.0 < req.targetDiameterM.value.1
    requires req.targetWidthM.Some? ==> 0.0 < req.targetWidthM.value.0
    ensures MatchTiresSpec(specs, req).Ok?
  {
    if specs != [] {
      MatchTiresNoDivisionByZero(specs[..|specs| - 1], req);
      var tire := specs[|specs| - 1];
      var soft := IsSoftField(req.runway);
      assert DiameterStep(tire, req.targetDiameterM, soft).Ok?;
      assert WidthStep(tire, req.targetWidthM, soft).Ok?;
      assert MatchTire(tire, req).Ok?;
    }
  }

  /** `match_tires`: scores each tire in turn, skips the unfit ones, sorts, cuts. */
  method MatchTires(specs: seq<TireSpec>, req: MatchRequest) returns (r: Result<seq<MatchedTire>>)
    ensures r == MatchTiresSpec(specs, req)
  {
    var safetyFactor := SafetyFactor(req.runway);
    var matches: seq<MatchedTire> := [];
    var i := 0;
    while i < |specs|
      invariant 0 <= i <= |specs|
      invariant ScoredMatches(specs[..i], req) == Ok(matches)
    {
      var tire := specs[i];
      assert specs[..i + 1][..i] == specs[..i];
      assert specs[..i + 1][i] == tire;
      var load := ScoreTireForLoad(tire, req.requiredDynamicLoadLbs, safetyFactor);
      if load.Err? {
        ScoredMatchesPrefixErr(specs, i + 1, req);
        return Err(ZeroDivisionError);
      }
      if load.value.score != 0.0 {
        var pressure := ScoreTireForPressure(tire, req.pressureLimitPsi);
        if pressure.0 != 0.0 {
          var dim := ScoreTireForDimensions(tire, req.targetDiameterM, req.targetWidthM, req.runway);
          if dim.Err? {
            ScoredMatchesPrefixErr(specs, i + 1, req);
            return Err(ZeroDivisionError);
          }
          var appBonus, appReasons := ScoreTireForApplication(tire, req.aircraftName, req.mtowKg, req.Rows(), req.isMain);
          var finalScore := CombinedScore(load.value.score, pressure.0, dim.value.0, appBonus);
          var allReasons := load.value.reasons + pressure.1 + dim.value.1 + appReasons;
          matches := matches + [MatchedTire(tire, load.value.margin, req.requiredDynamicLoadLbs,
                                            req.requiredStaticLoadLbs, allReasons, finalScore)];
        }
      }
      i := i + 1;
    }
    assert specs[..i] == specs;
    var sorted := Sorting.SortBy(matches, HigherMatchScore);
    r := Ok(SliceTo(sorted, req.maxResults));
  }

  // ---------------------------------------------------------------------
  // Choosing tires for a concept

  /** The pressure limit converted to psi, when the inputs give one. */
  function PressureLimitPsi(inputs: Inputs.AircraftInputs): (limit: Option<real>)
    ensures limit.Some? <==> inputs.tirePressureLimitKpa.Some?
    ensures limit.Some? ==> limit.value / KPA_TO_PSI == inputs.tirePressureLimitKpa.value
  {
    if inputs.tirePressureLimitKpa.Some? then Some(KpaToPsi(inputs.tirePressureLimitKpa.value)) else None
  }

  /** A concept's diameter range as a `(min, max)` pair. */
  function DiameterTarget(concept: Outputs.GearConcept): (real, real)
  {
    (concept.tireSuggestion.recommendedTireDiameterRangeM.min, concept.tireSuggestion.recommendedTireDiameterRangeM.max)
  }

  /** Nose/tail targets: 60 % of the main target's lower bound, 85 % of its upper bound. */
  function NoseTarget(target: (real, real)): (t: (real, real))
    ensures target.0 > 0.0 ==> 0.0 < t.0 < target.0
    ensures target.1 > 0.0 ==> 0.0 < t.1 < target.1
  {
    (target.0 * 0.6, target.1 * 0.85)
  }

  /** Conservative dynamic nose/tail load: 1.5 times static, or static plus 20 % of the main dynamic load. */
  function NoseDynamicLoadN(staticNoseN: real, dynamicMainN: real): (n: real)
    ensures n >= staticNoseN * 1.5 && n >= staticNoseN + 0.2 * dynamicMainN
    ensures n == staticNoseN * 1.5 || n == staticNoseN + 0.2 * dynamicMainN
  {
    Max(staticNoseN * 1.5, staticNoseN + 0.2 * dynamicMainN)
  }

  function MainRequest(concept: Outputs.GearConcept, inputs: Inputs.AircraftInputs,
                       applications: Option<seq<ApplicationRow>>, widthTarget: Option<(real, real)>): MatchRequest
  {
    MatchRequest(NToLbf(concept.tireSuggestion.requiredDynamicLoadPerWheelN),
                 NToLbf(concept.loads.staticMainLoadPerWheelN), inputs.runway, PressureLimitPsi(inputs),
                 Some(DiameterTarget(concept)), widthTarget, inputs.aircraftName, inputs.mtowKg, applications, true, 5)
  }

  function NoseRequest(concept: Outputs.GearConcept, inputs: Inputs.AircraftInputs,
                       applications: Option<seq<ApplicationRow>>, widthTarget: Option<(real, real)>): MatchRequest
  {
    var staticNoseN := concept.loads.staticNoseOrTailLoadN;
    var dynamicNoseN := NoseDynamicLoadN(staticNoseN, concept.tireSuggestion.requiredDynamicLoadPerWheelN);
    MatchRequest(NToLbf(dynamicNoseN), NToLbf(staticNoseN), inputs.runway, PressureLimitPsi(inputs),
                 Some(NoseTarget(DiameterTarget(concept))),
                 if widthTarget.Some? then Some(NoseTarget(widthTarget.value)) else None,
                 inputs.aircraftName, inputs.mtowKg, applications, false, 5)
  }

  function RunwayNotes(runway: Inputs.RunwayType): (notes: seq<MatchNote>)
    ensures GrassRunwayNote in notes <==> runway == Inputs.Grass
    ensures GravelRunwayNote in notes <==> runway == Inputs.Gravel
  {
    match runway
    case Grass => [GrassRunwayNote]
    case Gravel => [GravelRunwayNote]
    case Paved => []
  }

  function ChoiceNotes(limit: Option<real>, main: seq<MatchedTire>, nose: seq<MatchedTire>, runway: Inputs.RunwayType)
    : (notes: seq<MatchNote>)
    ensures MainOptionsFound(|main|) in notes <==> main != []
    ensures NoseOrTailOptionsFound(|nose|) in notes <==> nose != []
    ensures limit.Some? ==> |notes| > 0 && notes[0] == PressureLimitNote(limit.value)
    ensures limit.None? ==> forall k :: 0 <= k < |notes| ==> !notes[k].PressureLimitNote?
  {
    (if limit.Some? then [PressureLimitNote(limit.value)] else [])
    + (if main != [] then [MainOptionsFound(|main|)] else [])
    + (if nose != [] then [NoseOrTailOptionsFound(|nose|)] else [])
    + RunwayNotes(runway)
  }

  function ChoiceWarnings(main: seq<MatchedTire>, nose: seq<MatchedTire>): (warnings: seq<MatchWarning>)
    ensures |warnings| >= 1 && warnings[0] == TireSelectionWarning
    ensures NoSuitableMainTires in warnings <==> main == []
    ensures NoSuitableNoseOrTailTires in warnings <==> nose == []
  {
    [TireSelectionWarning]
    + (if main == [] then [NoSuitableMainTires] else [])
    + (if nose == [] then [NoSuitableNoseOrTailTires] else [])
  }

  /** What `choose_tires_for_concept` returns. */
  function TireChoice(concept: Outputs.GearConcept, inputs: Inputs.AircraftInputs, specs: seq<TireSpec>,
                      applications: Option<seq<ApplicationRow>>, widthTarget: Option<(real, real)>)
    : (r: Result<TireMatchResult>)
    ensures r.Err? ==> r.error == ZeroDivisionError
  {
    var main :- MatchTiresSpec(specs, MainRequest(concept, inputs, applications, widthTarget));
    var nose :- MatchTiresSpec(specs, NoseRequest(concept, inputs, applications, widthTarget));
    Ok(TireMatchResult(main, nose, ChoiceNotes(PressureLimitPsi(inputs), main, nose, inputs.runway),
                       ChoiceWarnings(main, nose)))
  }

  /**
   * The warnings of a choice: the disclaimer first, and a "no suitable tire"
   * warning exactly for a position with no match.
   */
  lemma TireChoiceWarnings(concept: Outputs.GearConcept, inputs: Inputs.AircraftInputs, specs: seq<TireSpec>,
                           applications: Option<seq<ApplicationRow>>, widthTarget: Option<(real, real)>)
    requires TireChoice(concept, inputs, specs, applications, widthTarget).Ok?
    ensures var choice := TireChoice(concept, inputs, specs, applications, widthTarget).value;
            && |choice.warnings| >= 1 && choice.warnings[0] == TireSelectionWarning
            && (NoSuitableMainTires in choice.warnings <==> choice.main == [])
            && (NoSuitableNoseOrTailTires in choice.warnings <==> choice.noseOrTail == [])
  {
    var choice := TireChoice(concept, inputs, specs, applications, widthTarget).value;
    assert choice.warnings == ChoiceWarnings(choice.main, choice.noseOrTail);
  }

  /**
   * The tires of a choice: at most five per position, best score first, each
   * a match for its position's request (main tires carry the main dynamic
   * load in pounds times the safety factor, nose/tail tires the conservative
   * nose load).
   */
  lemma TireChoiceMatches(concept: Outputs.GearConcept, inputs: Inputs.AircraftInputs, specs: seq<TireSpec>,
                          applications: Option<seq<ApplicationRow>>, widthTarget: Option<(real, real)>)
    requires TireChoice(concept, inputs, specs, applications, widthTarget).Ok?
    ensures var choice := TireChoice(concept, inputs, specs, applications, widthTarget).value;
            && |choice.main| <= 5 && |choice.noseOrTail| <= 5
            && MatchScoresNonIncreasing(choice.main) && MatchScoresNonIncreasing(choice.noseOrTail)
            && (forall m :: m in choice.main ==> IsMatchFor(m, MainRequest(concept, inputs, applications, widthTarget)))
            && (forall m :: m in choice.noseOrTail ==> IsMatchFor(m, NoseRequest(concept, inputs, applications, widthTarget)))
  {
    MatchTiresProperties(specs, MainRequest(concept, inputs, applications, widthTarget));
    MatchTiresProperties(specs, NoseRequest(concept, inputs, applications, widthTarget));
  }

  /** The main-wheel request, built from the concept as the source does. */
  method BuildMainRequest(concept: Outputs.GearConcept, inputs: Inputs.AircraftInputs, pressureLimitPsi: Option<real>,
                          applications: Option<seq<ApplicationRow>>, widthTarget: Option<(real, real)>)
    returns (req: MatchRequest)
    requires pressureLimitPsi == PressureLimitPsi(inputs)
    ensures req == MainRequest(concept, inputs, applications, widthTarget)
  {
    var diamRange := concept.tireSuggestion.recommendedTireDiameterRangeM;
    var targetDiam := (diamRange.min, diamRange.max);
    var staticMainPerWheelN := concept.loads.staticMainLoadPerWheelN;
    var dynamicMainPerWheelN := concept.tireSuggestion.requiredDynamicLoadPerWheelN;
    req := MatchRequest(NToLbf(dynamicMainPerWheelN), NToLbf(staticMainPerWheelN), inputs.runway, pressureLimitPsi,
                        Some(targetDiam), widthTarget, inputs.aircraftName, inputs.mtowKg, applications, true, 5);
  }

  /** The nose/tail request: the conservative dynamic load and the scaled-down targets. */
  method BuildNoseRequest(concept: Outputs.GearConcept, inputs: Inputs.AircraftInputs, pressureLimitPsi: Option<real>,
                          applications: Option<seq<ApplicationRow>>, widthTarget: Option<(real, real)>)
    returns (req: MatchRequest)
    requires pressureLimitPsi == PressureLimitPsi(inputs)
    ensures req == NoseRequest(concept, inputs, applications, widthTarget)
  {
    var diamRange := concept.tireSuggestion.recommendedTireDiameterRangeM;
    var targetDiam := (diamRange.min, diamRange.max);
    var dynamicMainPerWheelN := concept.tireSuggestion.requiredDynamicLoadPerWheelN;
    var staticNoseN := concept.loads.staticNoseOrTailLoadN;
    var dynamicNoseN := Max(staticNoseN * 1.5, staticNoseN + 0.2 * dynamicMainPerWheelN);
    var noseDiamTarget := (targetDiam.0 * 0.6, targetDiam.1 * 0.85);
    var noseWidthTarget: Option<(real, real)> := None;
    if widthTarget.Some? {
      noseWidthTarget := Some((widthTarget.value.0 * 0.6, widthTarget.value.1 * 0.85));
    }
    req := MatchRequest(NToLbf(dynamicNoseN), NToLbf(staticNoseN), inputs.runway, pressureLimitPsi,
                        Some(noseDiamTarget), noseWidthTarget, inputs.aircraftName, inputs.mtowKg, applications, false, 5);
  }

  /** After matching one position: a "found" note when it has matches, else a "no suitable tire" warning. */
  method RecordPosition(notes: seq<MatchNote>, warnings: seq<MatchWarning>, matches: seq<MatchedTire>,
                        found: MatchNote, missing: MatchWarning)
    returns (notes': seq<MatchNote>, warnings': seq<MatchWarning>)
    ensures notes' == notes + (if matches != [] then [found] else [])
    ensures warnings' == warnings + (if matches == [] then [missing] else [])
  {
    notes', warnings' := notes, warnings;
    if matches == [] {
      warnings' := warnings' + [missing];
    } else {
      notes' := notes' + [found];
    }
    assert notes + [] == notes && warnings + [] == warnings;
  }

  /** The runway-specific note, appended for grass and gravel. */
  method AddRunwayNote(notes: seq<MatchNote>, runway: Inputs.RunwayType) returns (notes': seq<MatchNote>)
    ensures notes' == notes + RunwayNotes(runway)
  {
    notes' := notes;
    if runway == Inputs.Grass {
      notes' := notes' + [GrassRunwayNote];
    } else if runway == Inputs.Gravel {
      notes' := notes' + [GravelRunwayNote];
    } else {
      assert notes + [] == notes;
    }
  }

  /** `choose_tires_for_concept`: matches both positions and collects notes and warnings. */
  method ChooseTiresForConcept(concept: Outputs.GearConcept, inputs: Inputs.AircraftInputs, specs: seq<TireSpec>,
                               applications: Option<seq<ApplicationRow>>, widthTarget: Option<(real, real)>)
    returns (r: Result<TireMatchResult>)
    ensures r == TireChoice(concept, inputs, specs, applications, widthTarget)
  {
    var notes: seq<MatchNote> := [];
    var warnings := [TireSelectionWarning];
    var pressureLimitPsi: Option<real> := None;
    if inputs.tirePressureLimitKpa.Some? {
      pressureLimitPsi := Some(KpaToPsi(inputs.tirePressureLimitKpa.value));
      notes := notes + [PressureLimitNote(pressureLimitPsi.value)];
    }
    assert notes == if pressureLimitPsi.Some? then [PressureLimitNote(pressureLimitPsi.value)] else [];

    var mainRequest := BuildMainRequest(concept, inputs, pressureLimitPsi, applications, widthTarget);
    var mainMatches := MatchTires(specs, mainRequest);
    if mainMatches.Err? {
      return Err(ZeroDivisionError);
    }
    notes, warnings := RecordPosition(notes, warnings, mainMatches.value,
                                      MainOptionsFound(|mainMatches.value|), NoSuitableMainTires);

    var noseRequest := BuildNoseRequest(concept, inputs, pressureLimitPsi, applications, widthTarget);
    var noseMatches := MatchTires(specs, noseRequest);
    if noseMatches.Err? {
      return Err(ZeroDivisionError);
    }
    notes, warnings := RecordPosition(notes, warnings, noseMatches.value,
                                      NoseOrTailOptionsFound(|noseMatches.value|), NoSuitableNoseOrTailTires);

    notes := AddRunwayNote(notes, inputs.runway);
    r := Ok(TireMatchResult(mainMatches.value, noseMatches.value, notes, warnings));
  }
}
