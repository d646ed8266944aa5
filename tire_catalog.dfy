// physics/tire_catalog.py: the built-in catalog of eleven general-aviation
// tires, the search that filters it by load margin and pressure limit and
// ranks the survivors, and the load-based estimate of tire diameter and
// width ranges.

module PhysicsTireCatalog {
  import opened Wrappers
  import opened Builtins
  import Sorting
  import Outputs

  /** One catalog row. A missing pressure rating is `None`. */
  datatype TireCatalogEntry = TireCatalogEntry(
    name: string,
    diameterM: real,
    widthM: real,
    maxLoadN: real,
    maxPressureKpa: Option<real>,
    softFieldSuitable: bool)

  /** What the search returns per tire: the entry without its soft-field flag. */
  datatype CatalogTire = CatalogTire(
    name: string,
    diameterM: real,
    widthM: real,
    maxLoadN: real,
    maxPressureKpa: Option<real>)

  const TIRE_CATALOG: seq<TireCatalogEntry> := [
    TireCatalogEntry("4.00-6", 0.305, 0.102, 2670.0, Some(207.0), false),
    TireCatalogEntry("5.00-5", 0.356, 0.127, 4450.0, Some(310.0), false),
    TireCatalogEntry("6.00-6", 0.432, 0.152, 6670.0, Some(345.0), true),
    TireCatalogEntry("6.50-8", 0.483, 0.165, 7560.0, Some(276.0), true),
    TireCatalogEntry("7.00-6", 0.483, 0.178, 9790.0, Some(345.0), true),
    TireCatalogEntry("8.00-6", 0.508, 0.203, 13350.0, Some(379.0), true),
    TireCatalogEntry("8.50-6", 0.533, 0.216, 15570.0, Some(414.0), true),
    TireCatalogEntry("22x8.00-8", 0.559, 0.203, 17800.0, Some(310.0), true),
    TireCatalogEntry("24x7.25-10", 0.610, 0.184, 20020.0, Some(448.0), false),
    TireCatalogEntry("26x10.5-6 Bush", 0.660, 0.267, 22240.0, Some(138.0), true),
    TireCatalogEntry("29x11.0-10", 0.737, 0.279, 31140.0, Some(345.0), true)
  ]

  /** Default number of tires the search returns. */
  const DEFAULT_MAX_RESULTS: int := 3

  // ---------------------------------------------------------------------
  // Filtering
  // ---------------------------------------------------------------------

  /**
   * An entry carries the required load with a 10 % margin and, when a
   * pressure limit is given and the entry has a rating, is rated no higher.
   */
  predicate Qualifies(entry: TireCatalogEntry, requiredLoadN: real, pressureLimitKpa: Option<real>)
  {
    && !(entry.maxLoadN < requiredLoadN * 1.1)
    && !(pressureLimitKpa.Some? && entry.maxPressureKpa.Some? && entry.maxPressureKpa.value > pressureLimitKpa.value)
  }

  /** The qualifying entries, in catalog order (defined from the last entry back). */
  function Qualifying(entries: seq<TireCatalogEntry>, requiredLoadN: real, pressureLimitKpa: Option<real>)
    : (q: seq<TireCatalogEntry>)
    ensures |q| <= |entries|
  {
    if entries == [] then []
    else
      var last := entries[|entries| - 1];
      Qualifying(entries[..|entries| - 1], requiredLoadN, pressureLimitKpa)
      + (if Qualifies(last, requiredLoadN, pressureLimitKpa) then [last] else [])
  }

  lemma QualifyingStep(entries: seq<TireCatalogEntry>, requiredLoadN: real, pressureLimitKpa: Option<real>, i: nat)
    requires i < |entries|
    ensures Qualifying(entries[..i + 1], requiredLoadN, pressureLimitKpa)
         == Qualifying(entries[..i], requiredLoadN, pressureLimitKpa)
            + (if Qualifies(entries[i], requiredLoadN, pressureLimitKpa) then [entries[i]] else [])
  {
    var prefix := entries[..i + 1];
    assert prefix[..|prefix| - 1] == entries[..i] && prefix[|prefix| - 1] == entries[i];
  }

  /** The filter keeps exactly the qualifying entries. */
  lemma {:induction false} QualifyingMembers(entries: seq<TireCatalogEntry>, requiredLoadN: real,
                                             pressureLimitKpa: Option<real>, e: TireCatalogEntry)
    ensures e in Qualifying(entries, requiredLoadN, pressureLimitKpa)
            <==> e in entries && Qualifies(e, requiredLoadN, pressureLimitKpa)
  {
    if entries != [] {
      var init := entries[..|entries| - 1];
      QualifyingMembers(init, requiredLoadN, pressureLimitKpa, e);
      assert entries == init + [entries[|entries| - 1]];
    }
  }

  // ---------------------------------------------------------------------
  // Ranking
  // ---------------------------------------------------------------------

  /**
   * The soft-field sort key `(not soft_field_suitable, -width_m, diameter_m)`
   * compared lexicographically: suitable entries first, then wider, then
   * smaller in diameter.
   */
  function SoftFieldFirst(a: TireCatalogEntry, b: TireCatalogEntry): bool
  {
    || (a.softFieldSuitable && !b.softFieldSuitable)
    || (a.softFieldSuitable == b.softFieldSuitable
        && (-a.widthM < -b.widthM || (-a.widthM == -b.widthM && a.diameterM < b.diameterM)))
  }

  /** The default sort key `(diameter_m, width_m)`: smallest adequate tire first. */
  function SmallestFirst(a: TireCatalogEntry, b: TireCatalogEntry): bool
  {
    a.diameterM < b.diameterM || (a.diameterM == b.diameterM && a.widthM < b.widthM)
  }

  lemma SoftFieldFirstIsStrictWeakOrder()
    ensures Sorting.StrictWeakOrder(SoftFieldFirst)
  {
  }

  lemma SmallestFirstIsStrictWeakOrder()
    ensures Sorting.StrictWeakOrder(SmallestFirst)
  {
  }

  /** The order the search sorts by. */
  function Preference(preferSoftField: bool): (T: (TireCatalogEntry, TireCatalogEntry) -> bool)
    ensures Sorting.StrictWeakOrder(T)
  {
    SoftFieldFirstIsStrictWeakOrder();
    SmallestFirstIsStrictWeakOrder();
    if preferSoftField then SoftFieldFirst else SmallestFirst
  }

  /** The entries the search reports: the qualifying ones, ranked, cut to `max_results`. */
  function ChosenEntries(catalog: seq<TireCatalogEntry>, requiredLoadN: real, pressureLimitKpa: Option<real>,
                         preferSoftField: bool, maxResults: int): seq<TireCatalogEntry>
  {
    SliceTo(Sorting.SortBy(Qualifying(catalog, requiredLoadN, pressureLimitKpa), Preference(preferSoftField)), maxResults)
  }

  function ToCatalogTire(entry: TireCatalogEntry): (t: CatalogTire)
    ensures t.name == entry.name && t.diameterM == entry.diameterM && t.widthM == entry.widthM
    ensures t.maxLoadN == entry.maxLoadN && t.maxPressureKpa == entry.maxPressureKpa
  {
    CatalogTire(entry.name, entry.diameterM, entry.widthM, entry.maxLoadN, entry.maxPressureKpa)
  }

  /** The output records, one per entry, in order (defined from the last entry back). */
  function ToCatalogTires(entries: seq<TireCatalogEntry>): (tires: seq<CatalogTire>)
    ensures |tires| == |entries|
    ensures forall k :: 0 <= k < |entries| ==> tires[k] == ToCatalogTire(entries[k])
  {
    if entries == [] then []
    else ToCatalogTires(entries[..|entries| - 1]) + [ToCatalogTire(entries[|entries| - 1])]
  }

  /** What `find_matching_tires` returns for a given catalog. */
  function MatchingTires(catalog: seq<TireCatalogEntry>, requiredLoadN: real, pressureLimitKpa: Option<real>,
                         preferSoftField: bool, maxResults: int): seq<CatalogTire>
  {
    ToCatalogTires(ChosenEntries(catalog, requiredLoadN, pressureLimitKpa, preferSoftField, maxResults))
  }

  /**
   * `find_matching_tires`: collect the qualifying entries in catalog order,
   * sort them by the chosen key, and convert the first `max_results`.
   */
  method FindMatchingTires(requiredLoadN: real, pressureLimitKpa: Option<real>, preferSoftField: bool, maxResults: int)
    returns (result: seq<CatalogTire>)
    ensures result == MatchingTires(TIRE_CATALOG, requiredLoadN, pressureLimitKpa, preferSoftField, maxResults)
  {
    var catalog := TIRE_CATALOG;
    var candidates: seq<TireCatalogEntry> := [];
    var i := 0;
    while i < |catalog|
      invariant 0 <= i <= |catalog|
      invariant candidates == Qualifying(catalog[..i], requiredLoadN, pressureLimitKpa)
    {
      var entry := catalog[i];
      QualifyingStep(catalog, requiredLoadN, pressureLimitKpa, i);
      // An entry short of the 10 % load margin, or rated above the limit, is skipped.
      if !(entry.maxLoadN < requiredLoadN * 1.1) {
        if !(pressureLimitKpa.Some? && entry.maxPressureKpa.Some? && entry.maxPressureKpa.value > pressureLimitKpa.value) {
          candidates := candidates + [entry];
        }
      }
      i := i + 1;
    }
    assert catalog[..i] == catalog;
    if candidates == [] {
      return [];
    }
    if preferSoftField {
      candidates := Sorting.SortBy(candidates, SoftFieldFirst);
    } else {
      candidates := Sorting.SortBy(candidates, SmallestFirst);
    }
    var top := SliceTo(candidates, maxResults);
    result := [];
    var j := 0;
    while j < |top|
      invariant 0 <= j <= |top|
      invariant result == ToCatalogTires(top[..j])
    {
      result := result + [ToCatalogTire(top[j])];
      assert top[..j + 1][..j] == top[..j];
      j := j + 1;
    }
    assert top[..j] == top;
  }

  // ---------------------------------------------------------------------
  // Properties of the search
  // ---------------------------------------------------------------------

  /**
   * The chosen entries: at most `max_results` of them (fewer than the
   * qualifying ones for a negative bound), each a catalog entry that
   * qualifies, ranked by the preference, no left-out qualifying entry
   * ranked strictly before a chosen one, and all qualifying entries when
   * `max_results` covers them.
   */
  lemma ChosenEntriesProperties(catalog: seq<TireCatalogEntry>, requiredLoadN: real, pressureLimitKpa: Option<real>,
                                preferSoftField: bool, maxResults: int)
    ensures var chosen := ChosenEntries(catalog, requiredLoadN, pressureLimitKpa, preferSoftField, maxResults);
            && (maxResults >= 0 ==> |chosen| <= maxResults)
            && |chosen| <= |Qualifying(catalog, requiredLoadN, pressureLimitKpa)|
            && (maxResults >= 0 ==>
                  |chosen| == if maxResults <= |Qualifying(catalog, requiredLoadN, pressureLimitKpa)| then maxResults
                              else |Qualifying(catalog, requiredLoadN, pressureLimitKpa)|)
            && Sorting.SortedBy(chosen, Preference(preferSoftField))
            && (forall e :: e in chosen ==> e in catalog && Qualifies(e, requiredLoadN, pressureLimitKpa))
            && (forall e, k ::
                  e in catalog && Qualifies(e, requiredLoadN, pressureLimitKpa) && e !in chosen && 0 <= k < |chosen|
                  ==> !Preference(preferSoftField)(e, chosen[k]))
            && (maxResults >= |catalog| ==>
                  forall e :: e in catalog && Qualifies(e, requiredLoadN, pressureLimitKpa) ==> e in chosen)
  {
    var q := Qualifying(catalog, requiredLoadN, pressureLimitKpa);
    var lt := Preference(preferSoftField);
    Sorting.SortedCut(q, lt, maxResults);
    forall e | e in catalog || e in q
      ensures e in q <==> e in catalog && Qualifies(e, requiredLoadN, pressureLimitKpa)
    {
      QualifyingMembers(catalog, requiredLoadN, pressureLimitKpa, e);
    }
  }

  /** With no qualifying entry the filter, and so the search, returns nothing. */
  lemma {:induction false} NoQualifyingEntryNoResult(catalog: seq<TireCatalogEntry>, requiredLoadN: real,
                                                     pressureLimitKpa: Option<real>, preferSoftField: bool, maxResults: int)
    requires forall e :: e in catalog ==> !Qualifies(e, requiredLoadN, pressureLimitKpa)
    ensures Qualifying(catalog, requiredLoadN, pressureLimitKpa) == []
    ensures MatchingTires(catalog, requiredLoadN, pressureLimitKpa, preferSoftField, maxResults) == []
  {
    if catalog != [] {
      NoQualifyingEntryNoResult(catalog[..|catalog| - 1], requiredLoadN, pressureLimitKpa, preferSoftField, maxResults);
    }
  }

  /**
   * Every returned tire is a catalog entry with the same name and ratings;
   * it carries the required load with a 10 % margin; and with a pressure
   * limit, no returned tire has a known rating above it.
   */
  lemma MatchingTiresQualify(catalog: seq<TireCatalogEntry>, requiredLoadN: real, pressureLimitKpa: Option<real>,
                             preferSoftField: bool, maxResults: int, k: int)
    requires 0 <= k < |MatchingTires(catalog, requiredLoadN, pressureLimitKpa, preferSoftField, maxResults)|
    ensures var t := MatchingTires(catalog, requiredLoadN, pressureLimitKpa, preferSoftField, maxResults)[k];
            && (exists e :: e in catalog && ToCatalogTire(e) == t)
            && t.maxLoadN >= requiredLoadN * 1.1
            && (pressureLimitKpa.Some? && t.maxPressureKpa.Some? ==> t.maxPressureKpa.value <= pressureLimitKpa.value)
  {
    var chosen := ChosenEntries(catalog, requiredLoadN, pressureLimitKpa, preferSoftField, maxResults);
    ChosenEntriesProperties(catalog, requiredLoadN, pressureLimitKpa, preferSoftField, maxResults);
    assert chosen[k] in chosen;
  }

  /** Without the soft-field preference, results ascend by diameter, then by width. */
  lemma SmallestFirstOrder(catalog: seq<TireCatalogEntry>, requiredLoadN: real, pressureLimitKpa: Option<real>,
                           maxResults: int, i: int, j: int)
    requires 0 <= i < j < |MatchingTires(catalog, requiredLoadN, pressureLimitKpa, false, maxResults)|
    ensures var r := MatchingTires(catalog, requiredLoadN, pressureLimitKpa, false, maxResults);
            && r[i].diameterM <= r[j].diameterM
            && (r[i].diameterM == r[j].diameterM ==> r[i].widthM <= r[j].widthM)
  {
    var chosen := ChosenEntries(catalog, requiredLoadN, pressureLimitKpa, false, maxResults);
    ChosenEntriesProperties(catalog, requiredLoadN, pressureLimitKpa, false, maxResults);
    assert !SmallestFirst(chosen[j], chosen[i]);
  }

  /**
   * With the soft-field preference, the chosen entries put soft-field
   * suitable tires first; among equally suitable ones, wider first; among
   * equally wide ones, smaller diameter first.
   */
  lemma SoftFieldFirstOrder(catalog: seq<TireCatalogEntry>, requiredLoadN: real, pressureLimitKpa: Option<real>,
                            maxResults: int, i: int, j: int)
    requires 0 <= i < j < |ChosenEntries(catalog, requiredLoadN, pressureLimitKpa, true, maxResults)|
    ensures var c := ChosenEntries(catalog, requiredLoadN, pressureLimitKpa, true, maxResults);
            && (c[j].softFieldSuitable ==> c[i].softFieldSuitable)
            && (c[i].softFieldSuitable == c[j].softFieldSuitable ==> c[i].widthM >= c[j].widthM)
            && (c[i].softFieldSuitable == c[j].softFieldSuitable && c[i].widthM == c[j].widthM
                ==> c[i].diameterM <= c[j].diameterM)
  {
    var chosen := ChosenEntries(catalog, requiredLoadN, pressureLimitKpa, true, maxResults);
    ChosenEntriesProperties(catalog, requiredLoadN, pressureLimitKpa, true, maxResults);
    assert !SoftFieldFirst(chosen[j], chosen[i]);
  }

  /** Entries that tie on the sort key keep their catalog order (Python's sort is stable). */
  lemma SearchIsStable(catalog: seq<TireCatalogEntry>, requiredLoadN: real, pressureLimitKpa: Option<real>,
                       preferSoftField: bool, x: TireCatalogEntry)
    ensures var q := Qualifying(catalog, requiredLoadN, pressureLimitKpa);
            Sorting.SameKeyRun(Sorting.SortBy(q, Preference(preferSoftField)), x, Preference(preferSoftField))
            == Sorting.SameKeyRun(q, x, Preference(preferSoftField))
  {
    Sorting.SortByStable(Qualifying(catalog, requiredLoadN, pressureLimitKpa), x, Preference(preferSoftField));
  }

  /** A 20 kN requirement under a 200 kPa limit leaves only the bush tire. */
  lemma HeavyLowPressureExample()
    ensures Qualifying(TIRE_CATALOG, 20000.0, Some(200.0)) == [TIRE_CATALOG[9]]
    ensures TIRE_CATALOG[9].name == "26x10.5-6 Bush"
  {
    var c := TIRE_CATALOG;
    NoQualifyingEntryNoResult(c[..9], 20000.0, Some(200.0), false, DEFAULT_MAX_RESULTS);
    QualifyingStep(c, 20000.0, Some(200.0), 9);
    QualifyingStep(c, 20000.0, Some(200.0), 10);
    assert c[..11] == c;
  }

  // ---------------------------------------------------------------------
  // Dimension estimate
  // ---------------------------------------------------------------------

  /** Base diameter range by load per tire. */
  function BaseDiameterRange(loadPerTireN: real): (r: Outputs.GeometryRange)
    ensures 0.25 <= r.min < r.max <= 0.75
  {
    if loadPerTireN < 3000.0 then Outputs.GeometryRange(0.25, 0.35)
    else if loadPerTireN < 5000.0 then Outputs.GeometryRange(0.30, 0.40)
    else if loadPerTireN < 10000.0 then Outputs.GeometryRange(0.35, 0.50)
    else if loadPerTireN < 20000.0 then Outputs.GeometryRange(0.45, 0.60)
    else Outputs.GeometryRange(0.55, 0.75)
  }

  /** Base width range by load per tire. */
  function BaseWidthRange(loadPerTireN: real): (r: Outputs.GeometryRange)
    ensures 0.08 <= r.min < r.max <= 0.30
  {
    if loadPerTireN < 3000.0 then Outputs.GeometryRange(0.08, 0.12)
    else if loadPerTireN < 5000.0 then Outputs.GeometryRange(0.10, 0.14)
    else if loadPerTireN < 10000.0 then Outputs.GeometryRange(0.12, 0.18)
    else if loadPerTireN < 20000.0 then Outputs.GeometryRange(0.15, 0.22)
    else Outputs.GeometryRange(0.20, 0.30)
  }

  lemma BaseRangesMonotone(l1: real, l2: real)
    requires l1 <= l2
    ensures BaseDiameterRange(l1).min <= BaseDiameterRange(l2).min && BaseDiameterRange(l1).max <= BaseDiameterRange(l2).max
    ensures BaseWidthRange(l1).min <= BaseWidthRange(l2).min && BaseWidthRange(l1).max <= BaseWidthRange(l2).max
  {
  }

  /** The runway table `(diameter factor, width factor)`; a surface not in the table counts as paved. */
  function RunwayDiameterFactor(runwayType: string): (f: real)
    ensures 1.0 <= f <= 1.15
  {
    if runwayType == "paved" then 1.0
    else if runwayType == "grass" then 1.15
    else if runwayType == "gravel" then 1.10
    else 1.0
  }

  function RunwayWidthFactor(runwayType: string): (f: real)
    ensures 1.0 <= f <= 1.30
  {
    if runwayType == "paved" then 1.0
    else if runwayType == "grass" then 1.30
    else if runwayType == "gravel" then 1.20
    else 1.0
  }

  /** Pressure adjustment of the diameter: below 200 kPa x1.20, below 300 kPa x1.10, else none. */
  function PressureDiameterFactor(tirePressureLimitKpa: Option<real>): (f: real)
    ensures 1.0 <= f <= 1.20
  {
    if tirePressureLimitKpa.None? then 1.0
    else if tirePressureLimitKpa.value < 200.0 then 1.20
    else if tirePressureLimitKpa.value < 300.0 then 1.10
    else 1.0
  }

  /** Pressure adjustment of the width: below 200 kPa x1.30, below 300 kPa x1.15, else none. */
  function PressureWidthFactor(tirePressureLimitKpa: Option<real>): (f: real)
    ensures 1.0 <= f <= 1.30
  {
    if tirePressureLimitKpa.None? then 1.0
    else if tirePressureLimitKpa.value < 200.0 then 1.30
    else if tirePressureLimitKpa.value < 300.0 then 1.15
    else 1.0
  }

  /** The combined diameter factor: runway factor times pressure factor. */
  function DiameterFactor(runwayType: string, tirePressureLimitKpa: Option<real>): (f: real)
    ensures 1.0 <= f <= 1.15 * 1.20
  {
    MulAtLeast(RunwayDiameterFactor(runwayType), PressureDiameterFactor(tirePressureLimitKpa));
    MulBoundedAbove(RunwayDiameterFactor(runwayType), 1.15, PressureDiameterFactor(tirePressureLimitKpa), 1.20);
    RunwayDiameterFactor(runwayType) * PressureDiameterFactor(tirePressureLimitKpa)
  }

  /** The combined width factor: runway factor times pressure factor. */
  function WidthFactor(runwayType: string, tirePressureLimitKpa: Option<real>): (f: real)
    ensures 1.0 <= f <= 1.30 * 1.30
  {
    MulAtLeast(RunwayWidthFactor(runwayType), PressureWidthFactor(tirePressureLimitKpa));
    MulBoundedAbove(RunwayWidthFactor(runwayType), 1.30, PressureWidthFactor(tirePressureLimitKpa), 1.30);
    RunwayWidthFactor(runwayType) * PressureWidthFactor(tirePressureLimitKpa)
  }

  /** Both ends of a range multiplied by one factor. */
  function ScaledRange(range: Outputs.GeometryRange, factor: real): Outputs.GeometryRange
  {
    Outputs.GeometryRange(range.min * factor, range.max * factor)
  }

  /**
   * Scaling a proper positive range by a product of two factors of at least
   * 1 keeps it proper, never shrinks either end, grows each end by at most
   * the product of the factors' upper bounds, and keeps the ends'
   * proportion.
   */
  lemma ScaledRangeProperties(range: Outputs.GeometryRange, f: real, bigF: real)
    requires 0.0 < range.min < range.max
    requires 1.0 <= f <= bigF
    ensures var s := ScaledRange(range, f);
            && s.min < s.max
            && range.min <= s.min <= range.min * bigF
            && range.max <= s.max <= range.max * bigF
            && s.min * range.max == s.max * range.min
  {
    MulStrictMonotone(range.min, range.max, f);
    MulAtLeast(f, range.min);
    MulAtLeast(f, range.max);
    MulMonotone(f, bigF, range.min);
    MulMonotone(f, bigF, range.max);
    assert range.min * f * range.max == range.max * f * range.min;
  }

  /**
   * `estimate_tire_dimensions`: the load-based diameter and width ranges,
   * each end scaled by its runway factor times its pressure factor. Both ranges
   * are proper; neither end ever falls below the base range; the diameter
   * grows by at most 1.15 x 1.20 and the width by at most 1.30 x 1.30; and
   * each range keeps the proportion of its base.
   */
  function EstimateTireDimensions(loadPerTireN: real, runwayType: string, tirePressureLimitKpa: Option<real>)
    : (r: (Outputs.GeometryRange, Outputs.GeometryRange))
    ensures r.0 == ScaledRange(BaseDiameterRange(loadPerTireN), DiameterFactor(runwayType, tirePressureLimitKpa))
    ensures r.1 == ScaledRange(BaseWidthRange(loadPerTireN), WidthFactor(runwayType, tirePressureLimitKpa))
    ensures r.0.min < r.0.max && r.1.min < r.1.max
    ensures BaseDiameterRange(loadPerTireN).min <= r.0.min <= BaseDiameterRange(loadPerTireN).min * (1.15 * 1.20)
    ensures BaseDiameterRange(loadPerTireN).max <= r.0.max <= BaseDiameterRange(loadPerTireN).max * (1.15 * 1.20)
    ensures BaseWidthRange(loadPerTireN).min <= r.1.min <= BaseWidthRange(loadPerTireN).min * (1.30 * 1.30)
    ensures BaseWidthRange(loadPerTireN).max <= r.1.max <= BaseWidthRange(loadPerTireN).max * (1.30 * 1.30)
    ensures r.0.min * BaseDiameterRange(loadPerTireN).max == r.0.max * BaseDiameterRange(loadPerTireN).min
    ensures r.1.min * BaseWidthRange(loadPerTireN).max == r.1.max * BaseWidthRange(loadPerTireN).min
  {
    ScaledRangeProperties(BaseDiameterRange(loadPerTireN), DiameterFactor(runwayType, tirePressureLimitKpa), 1.15 * 1.20);
    ScaledRangeProperties(BaseWidthRange(loadPerTireN), WidthFactor(runwayType, tirePressureLimitKpa), 1.30 * 1.30);
    (ScaledRange(BaseDiameterRange(loadPerTireN), DiameterFactor(runwayType, tirePressureLimitKpa)),
     ScaledRange(BaseWidthRange(loadPerTireN), WidthFactor(runwayType, tirePressureLimitKpa)))
  }

  /** Neither end of `a` exceeds the same end of `b`. */
  predicate EndsAtMost(a: Outputs.GeometryRange, b: Outputs.GeometryRange)
  {
    a.min <= b.min && a.max <= b.max
  }

  lemma ScaledRangeMonotone(r1: Outputs.GeometryRange, r2: Outputs.GeometryRange, f1: real, f2: real)
    requires 0.0 <= r1.min && 0.0 <= r1.max && EndsAtMost(r1, r2)
    requires 0.0 <= f1 <= f2
    ensures EndsAtMost(ScaledRange(r1, f1), ScaledRange(r2, f2))
  {
    MulBoundedAbove(r1.min, r2.min, f1, f2);
    MulBoundedAbove(r1.max, r2.max, f1, f2);
  }

  /** A heavier load per tire never gives a smaller diameter or width range. */
  lemma EstimateMonotoneInLoad(l1: real, l2: real, runwayType: string, tirePressureLimitKpa: Option<real>)
    requires l1 <= l2
    ensures EndsAtMost(EstimateTireDimensions(l1, runwayType, tirePressureLimitKpa).0,
                       EstimateTireDimensions(l2, runwayType, tirePressureLimitKpa).0)
    ensures EndsAtMost(EstimateTireDimensions(l1, runwayType, tirePressureLimitKpa).1,
                       EstimateTireDimensions(l2, runwayType, tirePressureLimitKpa).1)
  {
    BaseRangesMonotone(l1, l2);
    var df, wf := DiameterFactor(runwayType, tirePressureLimitKpa), WidthFactor(runwayType, tirePressureLimitKpa);
    MulNonNegative(RunwayDiameterFactor(runwayType), PressureDiameterFactor(tirePressureLimitKpa));
    MulNonNegative(RunwayWidthFactor(runwayType), PressureWidthFactor(tirePressureLimitKpa));
    ScaledRangeMonotone(BaseDiameterRange(l1), BaseDiameterRange(l2), df, df);
    ScaledRangeMonotone(BaseWidthRange(l1), BaseWidthRange(l2), wf, wf);
  }

  /** Larger pressure factors never give a smaller range. */
  lemma EstimateMonotoneInPressureFactors(loadPerTireN: real, runwayType: string, q1: Option<real>, q2: Option<real>)
    requires PressureDiameterFactor(q1) <= PressureDiameterFactor(q2)
    requires PressureWidthFactor(q1) <= PressureWidthFactor(q2)
    ensures EndsAtMost(EstimateTireDimensions(loadPerTireN, runwayType, q1).0,
                       EstimateTireDimensions(loadPerTireN, runwayType, q2).0)
    ensures EndsAtMost(EstimateTireDimensions(loadPerTireN, runwayType, q1).1,
                       EstimateTireDimensions(loadPerTireN, runwayType, q2).1)
  {
    var rd, rw := RunwayDiameterFactor(runwayType), RunwayWidthFactor(runwayType);
    MulBoundedAbove(rd, rd, PressureDiameterFactor(q1), PressureDiameterFactor(q2));
    MulBoundedAbove(rw, rw, PressureWidthFactor(q1), PressureWidthFactor(q2));
    MulNonNegative(rd, PressureDiameterFactor(q1));
    MulNonNegative(rw, PressureWidthFactor(q1));
    ScaledRangeMonotone(BaseDiameterRange(loadPerTireN), BaseDiameterRange(loadPerTireN),
                        DiameterFactor(runwayType, q1), DiameterFactor(runwayType, q2));
    ScaledRangeMonotone(BaseWidthRange(loadPerTireN), BaseWidthRange(loadPerTireN),
                        WidthFactor(runwayType, q1), WidthFactor(runwayType, q2));
  }

  /**
   * A stricter pressure limit never gives a smaller range, and any limit
   * gives at least the ranges of no limit.
   */
  lemma EstimateLowerPressureLimitNotSmaller(loadPerTireN: real, runwayType: string, p1: real, p2: real)
    requires p1 <= p2
    ensures EndsAtMost(EstimateTireDimensions(loadPerTireN, runwayType, Some(p2)).0,
                       EstimateTireDimensions(loadPerTireN, runwayType, Some(p1)).0)
    ensures EndsAtMost(EstimateTireDimensions(loadPerTireN, runwayType, Some(p2)).1,
                       EstimateTireDimensions(loadPerTireN, runwayType, Some(p1)).1)
    ensures EndsAtMost(EstimateTireDimensions(loadPerTireN, runwayType, None).0,
                       EstimateTireDimensions(loadPerTireN, runwayType, Some(p1)).0)
    ensures EndsAtMost(EstimateTireDimensions(loadPerTireN, runwayType, None).1,
                       EstimateTireDimensions(loadPerTireN, runwayType, Some(p1)).1)
  {
    EstimateMonotoneInPressureFactors(loadPerTireN, runwayType, Some(p2), Some(p1));
    EstimateMonotoneInPressureFactors(loadPerTireN, runwayType, None, Some(p1));
  }

  /** Gravel never gives smaller ranges than paved, nor grass than gravel. */
  lemma EstimateSofterSurfaceNotSmaller(loadPerTireN: real, tirePressureLimitKpa: Option<real>)
    ensures EndsAtMost(EstimateTireDimensions(loadPerTireN, "paved", tirePressureLimitKpa).0,
                       EstimateTireDimensions(loadPerTireN, "gravel", tirePressureLimitKpa).0)
    ensures EndsAtMost(EstimateTireDimensions(loadPerTireN, "paved", tirePressureLimitKpa).1,
                       EstimateTireDimensions(loadPerTireN, "gravel", tirePressureLimitKpa).1)
    ensures EndsAtMost(EstimateTireDimensions(loadPerTireN, "gravel", tirePressureLimitKpa).0,
                       EstimateTireDimensions(loadPerTireN, "grass", tirePressureLimitKpa).0)
    ensures EndsAtMost(EstimateTireDimensions(loadPerTireN, "gravel", tirePressureLimitKpa).1,
                       EstimateTireDimensions(loadPerTireN, "grass", tirePressureLimitKpa).1)
  {
    var pd, pw := PressureDiameterFactor(tirePressureLimitKpa), PressureWidthFactor(tirePressureLimitKpa);
    var d, w := BaseDiameterRange(loadPerTireN), BaseWidthRange(loadPerTireN);
    MulBoundedAbove(1.0, 1.10, pd, pd);
    MulBoundedAbove(1.10, 1.15, pd, pd);
    MulBoundedAbove(1.0, 1.20, pw, pw);
    MulBoundedAbove(1.20, 1.30, pw, pw);
    ScaledRangeMonotone(d, d, DiameterFactor("paved", tirePressureLimitKpa), DiameterFactor("gravel", tirePressureLimitKpa));
    ScaledRangeMonotone(d, d, DiameterFactor("gravel", tirePressureLimitKpa), DiameterFactor("grass", tirePressureLimitKpa));
    ScaledRangeMonotone(w, w, WidthFactor("paved", tirePressureLimitKpa), WidthFactor("gravel", tirePressureLimitKpa));
    ScaledRangeMonotone(w, w, WidthFactor("gravel", tirePressureLimitKpa), WidthFactor("grass", tirePressureLimitKpa));
  }

  /** On paved runways with no pressure limit the estimate is the base ranges unchanged. */
  lemma EstimatePavedNoLimitIsBase(loadPerTireN: real)
    ensures EstimateTireDimensions(loadPerTireN, "paved", None).0 == BaseDiameterRange(loadPerTireN)
    ensures EstimateTireDimensions(loadPerTireN, "paved", None).1 == BaseWidthRange(loadPerTireN)
  {
    var d, w := BaseDiameterRange(loadPerTireN), BaseWidthRange(loadPerTireN);
    var df, wf := DiameterFactor("paved", None), WidthFactor("paved", None);
    assert RunwayDiameterFactor("paved") == 1.0 && PressureDiameterFactor(None) == 1.0;
    assert RunwayWidthFactor("paved") == 1.0 && PressureWidthFactor(None) == 1.0;
    MulByOne(1.0, 1.0);
    MulByOne(d.min, df);
    MulByOne(d.max, df);
    MulByOne(w.min, wf);
    MulByOne(w.max, wf);
  }
}
