// tire_catalog/models.py: the records of the tire catalog layer (a parsed
// tire specification, an application-chart row, a matched tire and the
// matching result) and the unit conversions a specification offers.
// Reason, note and warning texts are kept as enumerations carrying the
// figures they print.

module TireModels {
  import opened Wrappers

  /** Pounds-force to newtons, as the specification converts its rated load. */
  const NEWTONS_PER_LB: real := 4.44822

  /** Inches to metres. */
  const METRES_PER_INCH: real := 0.0254

  /** A row of the three-part tire specification table. */
  datatype TireSpec = TireSpec(
    source: string,
    size: string,
    plyRating: Option<string>,
    ttTl: Option<string>,
    ratedSpeedMph: Option<real>,
    ratedLoadLbs: real,
    ratedInflationPsi: Option<real>,
    maxBrakingLoadLbs: Option<real>,
    maxBottomingLoadLbs: Option<real>,
    outsideDiameterIn: Option<real>,
    sectionWidthIn: Option<real>,
    staticLoadedRadiusIn: Option<real>,
    rimSize: Option<string>,
    partNumber: Option<string>,
    treadDesign: Option<string>,
    rawLine: Option<string>,
    page: Option<int>)
  {
    /** Rated load in newtons: scaling by pounds-force per newton gives the pound rating back. */
    function RatedLoadN(): (n: real)
      ensures n / NEWTONS_PER_LB == ratedLoadLbs
      ensures ratedLoadLbs >= 0.0 ==> n >= ratedLoadLbs
    {
      ratedLoadLbs * NEWTONS_PER_LB
    }

    /** Outside diameter in metres, present exactly when the inch value is. */
    function OutsideDiameterM(): (d: Option<real>)
      ensures d.Some? <==> outsideDiameterIn.Some?
      ensures d.Some? ==> d.value / METRES_PER_INCH == outsideDiameterIn.value
    {
      if outsideDiameterIn.Some? then Some(outsideDiameterIn.value * METRES_PER_INCH) else None
    }

    /** Section width in metres, present exactly when the inch value is. */
    function SectionWidthM(): (w: Option<real>)
      ensures w.Some? <==> sectionWidthIn.Some?
      ensures w.Some? ==> w.value / METRES_PER_INCH == sectionWidthIn.value
    {
      if sectionWidthIn.Some? then Some(sectionWidthIn.value * METRES_PER_INCH) else None
    }
  }

  /** The record the importer builds: source "goodyear_2022", no rim, tread or loaded radius. */
  function ImportedTireSpec(size: string, plyRating: Option<string>, ttTl: Option<string>,
                            ratedSpeedMph: Option<real>, ratedLoadLbs: real, ratedInflationPsi: Option<real>,
                            maxBrakingLoadLbs: Option<real>, maxBottomingLoadLbs: Option<real>,
                            outsideDiameterIn: Option<real>, sectionWidthIn: Option<real>,
                            partNumber: Option<string>, rawLine: string, page: int): (spec: TireSpec)
    ensures spec.source == "goodyear_2022" && spec.size == size && spec.ratedLoadLbs == ratedLoadLbs
    ensures spec.rawLine == Some(rawLine) && spec.page == Some(page)
    ensures spec.rimSize.None? && spec.treadDesign.None? && spec.staticLoadedRadiusIn.None?
  {
    TireSpec("goodyear_2022", size, plyRating, ttTl, ratedSpeedMph, ratedLoadLbs, ratedInflationPsi,
             maxBrakingLoadLbs, maxBottomingLoadLbs, outsideDiameterIn, sectionWidthIn, None, None,
             partNumber, None, Some(rawLine), Some(page))
  }

  /** A row of an application chart: aircraft model and its main and auxiliary tire sizes. */
  datatype ApplicationRow = ApplicationRow(
    manufacturer: Option<string>,
    model: string,
    mainTireSize: Option<string>,
    auxTireSize: Option<string>,
    mainPly: Option<string>,
    auxPly: Option<string>,
    code: Option<string>,
    page: Option<int>,
    rawLine: Option<string>)

  /** Why a tire was scored as it was. */
  datatype Reason =
    | InsufficientLoad
    | LoadMargin(margin: real)
    | PressureDataUnavailable
    | ExceedsPressureLimit(inflationPsi: real, limitPsi: real)
    | WithinPressureLimits
    | DiameterInRange
    | DiameterUndersized
    | LargerDiameterSoftField
    | DiameterOversized
    | WidthNarrowSoftField
    | WiderTireSoftField
    | MatchesApplicationChart(model: string)
    | CommonLightGaSize

  /** A tire matched to a wheel position, with its load margin and score. */
  datatype MatchedTire = MatchedTire(
    tire: TireSpec,
    marginLoad: real,
    requiredDynamicLoadLbs: real,
    requiredStaticLoadLbs: real,
    reasons: seq<Reason>,
    score: real)
  {
    /** Field bound: the score lies in [0, 1]. */
    predicate FieldsValid()
    {
      0.0 <= score <= 1.0
    }
  }

  datatype MatchNote =
    | PressureLimitNote(limitPsi: real)
    | MainOptionsFound(count: nat)
    | NoseOrTailOptionsFound(count: nat)
    | GrassRunwayNote
    | GravelRunwayNote

  datatype MatchWarning =
    | TireSelectionWarning
    | NoSuitableMainTires
    | NoSuitableNoseOrTailTires

  /** Matches for the main and the nose or tail wheels, with notes and warnings. */
  datatype TireMatchResult = TireMatchResult(
    main: seq<MatchedTire>,
    noseOrTail: seq<MatchedTire>,
    notes: seq<MatchNote>,
    warnings: seq<MatchWarning>)

  /** The conversions of the test scenario: 1600 lb, 17.5 in and 6.0 in. */
  lemma TireSpecConversionExample(spec: TireSpec)
    requires spec.ratedLoadLbs == 1600.0
    requires spec.outsideDiameterIn == Some(17.5) && spec.sectionWidthIn == Some(6.0)
    ensures spec.RatedLoadN() == 7117.152
    ensures spec.OutsideDiameterM() == Some(0.4445)
    ensures spec.SectionWidthM() == Some(0.1524)
  {
  }
}
