// models/inputs.py: the aircraft parameters the sizing engine consumes, the
// constraints the input layer enforces on them, and the derived quantities.

module Inputs {
  import opened Wrappers

  datatype RunwayType = Paved | Grass | Gravel
  {
    /** The enum's string value, as passed to the physics layer. */
    function Value(): (s: string)
      ensures s in {"paved", "grass", "gravel"}
    {
      match this
      case Paved => "paved"
      case Grass => "grass"
      case Gravel => "gravel"
    }
  }

  /** Relative importance of the four scoring criteria. */
  datatype DesignPriorities = DesignPriorities(robustness: real, lowDrag: real, lowMass: real, simplicity: real)
  {
    /** Field constraint: every weight is non-negative. */
    predicate Valid()
    {
      robustness >= 0.0 && lowDrag >= 0.0 && lowMass >= 0.0 && simplicity >= 0.0
    }

    function Total(): real
    {
      robustness + lowDrag + lowMass + simplicity
    }
  }

  const DEFAULT_PRIORITIES: DesignPriorities := DesignPriorities(1.0, 1.0, 1.0, 1.0)

  /** The normalised weights `normalized()` returns, keyed by criterion. */
  datatype Weights = Weights(robustness: real, lowDrag: real, lowMass: real, simplicity: real)
  {
    function Sum(): real
    {
      robustness + lowDrag + lowMass + simplicity
    }

    predicate InUnitInterval()
    {
      0.0 <= robustness <= 1.0 && 0.0 <= lowDrag <= 1.0 && 0.0 <= lowMass <= 1.0 && 0.0 <= simplicity <= 1.0
    }
  }

  /**
   * Each weight divided by the total; equal weights of 0.25 when every
   * priority is zero. Each normalised weight keeps its priority's share of
   * the total, so for valid priorities they lie in [0, 1] and add up to 1.
   */
  function Normalized(p: DesignPriorities): (w: Weights)
    ensures p.Total() == 0.0 ==> w == Weights(0.25, 0.25, 0.25, 0.25)
    ensures p.Total() != 0.0 ==>
              && w.robustness * p.Total() == p.robustness
              && w.lowDrag * p.Total() == p.lowDrag
              && w.lowMass * p.Total() == p.lowMass
              && w.simplicity * p.Total() == p.simplicity
  {
    var total := p.robustness + p.lowDrag + p.lowMass + p.simplicity;
    if total == 0.0 then Weights(0.25, 0.25, 0.25, 0.25)
    else Weights(p.robustness / total, p.lowDrag / total, p.lowMass / total, p.simplicity / total)
  }

  /** For valid priorities the normalised weights lie in [0, 1] and sum to one. */
  lemma NormalizedIsDistribution(p: DesignPriorities)
    requires p.Valid()
    ensures Normalized(p).InUnitInterval()
    ensures Normalized(p).Sum() == 1.0
  {
    var w := Normalized(p);
    var t := p.Total();
    if t != 0.0 {
      ShareInUnitInterval(p.robustness, t, w.robustness);
      ShareInUnitInterval(p.lowDrag, t, w.lowDrag);
      ShareInUnitInterval(p.lowMass, t, w.lowMass);
      ShareInUnitInterval(p.simplicity, t, w.simplicity);
      SharesSumToOne(p.robustness, p.lowDrag, p.lowMass, p.simplicity, t,
                     w.robustness, w.lowDrag, w.lowMass, w.simplicity);
    }
  }

  lemma ShareInUnitInterval(part: real, total: real, share: real)
    requires 0.0 <= part <= total && total > 0.0 && share * total == part
    ensures 0.0 <= share <= 1.0
  {
  }

  lemma SharesSumToOne(a: real, b: real, c: real, d: real, t: real, wa: real, wb: real, wc: real, wd: real)
    requires t == a + b + c + d && t > 0.0
    requires wa * t == a && wb * t == b && wc * t == c && wd * t == d
    ensures wa + wb + wc + wd == 1.0
  {
    assert (wa + wb + wc + wd) * t == wa * t + wb * t + wc * t + wd * t;
  }

  /** An aircraft description as validated by the input layer. */
  datatype AircraftInputs = AircraftInputs(
    aircraftName: string,
    mtowKg: real,
    mlwKg: Option<real>,
    cgFwdM: real,
    cgAftM: real,
    mainGearAttachGuessM: Option<real>,
    noseGearAttachGuessM: Option<real>,
    landingSpeedMps: real,
    sinkRateMps: real,
    runway: RunwayType,
    retractable: bool,
    propClearanceM: real,
    wingLow: bool,
    tirePressureLimitKpa: Option<real>,
    maxGearMassKg: Option<real>,
    designPriorities: DesignPriorities)
  {
    /**
     * The field constraints and the CG validator: positive masses and speeds,
     * a sink rate in (0, 5], a non-negative propeller clearance, positive
     * optional limits, non-negative priorities, and aft CG not ahead of the
     * forward CG.
     */
    predicate Valid()
    {
      && mtowKg > 0.0
      && (mlwKg.Some? ==> mlwKg.value > 0.0)
      && cgAftM >= cgFwdM
      && landingSpeedMps > 0.0
      && 0.0 < sinkRateMps <= 5.0
      && propClearanceM >= 0.0
      && (tirePressureLimitKpa.Some? ==> tirePressureLimitKpa.value > 0.0)
      && (maxGearMassKg.Some? ==> maxGearMassKg.value > 0.0)
      && designPriorities.Valid()
    }

    /** Middle of the CG envelope. */
    function CgMidM(): (mid: real)
      ensures cgAftM >= cgFwdM ==> cgFwdM <= mid <= cgAftM
      ensures mid - cgFwdM == cgAftM - mid
    {
      (cgFwdM + cgAftM) / 2.0
    }

    /** CG travel. */
    function CgRangeM(): (range: real)
      ensures cgFwdM + range == cgAftM
      ensures cgAftM >= cgFwdM ==> range >= 0.0
    {
      cgAftM - cgFwdM
    }

    /** Landing mass: the given MLW, else 95 % of MTOW. */
    function GetMlwKg(): (mlw: real)
      ensures mlwKg.Some? ==> mlw == mlwKg.value
      ensures mlwKg.None? ==> mlw == 0.95 * mtowKg
      ensures Valid() ==> mlw > 0.0
    {
      if mlwKg.Some? then mlwKg.value else 0.95 * mtowKg
    }
  }

  /** The after-validator: a missing MLW is filled in with 95 % of MTOW. */
  function SetMlwDefault(a: AircraftInputs): (b: AircraftInputs)
    ensures b.mlwKg.Some?
    ensures b.GetMlwKg() == a.GetMlwKg()
    ensures b == a.(mlwKg := b.mlwKg)
    ensures a.Valid() ==> b.Valid()
  {
    if a.mlwKg.None? then a.(mlwKg := Some(0.95 * a.mtowKg)) else a
  }
}
