# gearrec: landing-gear sizing engine, modelled in Dafny

gearrec sizes the landing gear of a light aircraft at the conceptual stage.
From coarse aircraft inputs it works out several things:

- the touchdown energy, shock-absorber stroke and static and dynamic loads;
- the track, wheelbase and strut ranges;
- the tip-back, nose-over, clearance and rollover checks.

Over the gear-configuration space it then enumerates candidate concepts,
scores each one against weighted design priorities, and keeps the best three
to six. A tire catalog matches the required tire loads and diameters to
catalog tires. An importer reads Goodyear's 2022 data book, which it receives
as text lines: tire data rows and aircraft application rows.

This project restates that core in Dafny and proves properties of it.

| file | module | models |
|---|---|---|
| `wrappers.dfy` | `Wrappers` | `Option` and `Result`; Python exceptions as `PyError` values |
| `builtins.dfy` | `Builtins` | `min`, `max`, clamping and Python slicing, plus small facts of real arithmetic |
| `strings.dfy` | `Strings` | `str.upper`, `strip`, `split`, `join`, `startswith`, `in` and `replace` |
| `sorting.dfy` | `Sorting` | Python's stable `list.sort(key=…, reverse=…)`, as insertion sort |
| `units.dfy` | `PhysicsUnits` | `physics/units.py` |
| `inputs.dfy`, `outputs.dfy` | `Inputs`, `Outputs` | `models/inputs.py`, `models/outputs.py` |
| `loads.dfy`, `energy.dfy`, `geometry.dfy` | `PhysicsLoads`, `PhysicsEnergy`, `PhysicsGeometry` | `physics/loads.py`, `energy.py`, `geometry.py` |
| `tire_catalog.dfy` | `PhysicsTireCatalog` | `physics/tire_catalog.py` (built-in tire table and dimension estimate) |
| `scorer.dfy` | `Scorer` | `scoring/scorer.py` |
| `candidates.dfy` | `Candidates` | `generator/candidates.py` |
| `tire_models.dfy` | `TireModels` | `tire_catalog/models.py` |
| `matcher.dfy` | `TireMatcher` | `tire_catalog/matcher.py` |
| `goodyear_patterns.dfy`, `goodyear_import.dfy` | `GoodyearPatterns`, `GoodyearImport` | the regular expressions, `parse_number`, `parse_tire_data_line` and `parse_application_line` of `tire_catalog/import_goodyear_2022.py` |

How the source's forms are modelled:

- Pure formulas are functions. Each has a named result, and its `ensures`
  states the physical relation it must satisfy. For example, the moment
  balance of a load split is stated as a product, not as the quotient the
  code computes.
- Where the source raises (`ValueError`, `ZeroDivisionError`, an
  `AttributeError` read), the function returns `Err`.
- Loops are methods with `while` loops, each proved equal to a declarative
  function: configuration enumeration, concept building, explanation
  generation, the tire searches and both line parsers.
- The objects whose fields are set once (`GearGenerator`, `GearScorer`,
  `TireMatcher`) are datatypes.
- Floats are `real`. Square and cube roots and `atan2` are passed in as
  parameters, pinned by the equation they satisfy.

## Model

| member | source | states |
|---|---|---|
| PhysicsUnits.KgToN | gearrec/physics/units.py:39-41 | the weight divided by standard gravity (9.80665) gives back the mass; a positive mass weighs more newtons than it has kilograms |
| PhysicsUnits.NToKg | gearrec/physics/units.py:44-46 | the mass times standard gravity is the weight |
| PhysicsUnits.RoundTrip | gearrec/physics/units.py:39-46 | kg → N → kg and N → kg → N are both the identity |
| PhysicsUnits.KgToNStrictlyIncreasing | gearrec/physics/units.py:39-41 | a heavier mass has a strictly larger weight; zero mass weighs nothing |
| Inputs.RunwayType.Value | gearrec/models/inputs.py:14-18 | the enum value is one of "paved", "grass", "gravel" |
| Inputs.Normalized | gearrec/models/inputs.py:33-45 | all-zero priorities give 0.25 each; otherwise each weight times the total is its priority |
| Inputs.NormalizedIsDistribution | gearrec/models/inputs.py:33-45 | for non-negative priorities the normalized weights each lie in [0, 1] and sum to exactly 1 |
| Inputs.AircraftInputs.CgMidM | gearrec/models/inputs.py:149-151 | the mid CG is equidistant from both limits and lies between them when they are ordered |
| Inputs.AircraftInputs.CgRangeM | gearrec/models/inputs.py:154-156 | forward limit plus range is the aft limit; the range is non-negative when the limits are ordered |
| Inputs.AircraftInputs.GetMlwKg | gearrec/models/inputs.py:158-160 | the given MLW when present, else 0.95 × MTOW; positive for valid inputs |
| Inputs.SetMlwDefault | gearrec/models/inputs.py:141-146 | after the validator the MLW is present, equal to the value `get_mlw_kg` gave before, nothing else changed and validity kept |
| Outputs.GearConfig.Value | gearrec/models/outputs.py:14-18 | the value is "taildragger" exactly for the taildragger |
| Outputs.GeometryRange.Mid | gearrec/models/outputs.py:32-34 | the midpoint is equidistant from both ends and inside a proper range |
| Outputs.GeometryRange.Span | gearrec/models/outputs.py:37-39 | min plus span is max; non-negative for a proper range |
| Outputs.BestConcept | gearrec/models/outputs.py:262-264 | the best concept is one of the concepts and no concept scores higher |
| Outputs.BestIndex | gearrec/models/outputs.py:262-264 | `max` returns the first concept with the top score: every earlier one scores strictly less |
| Outputs.PassingConcepts | gearrec/models/outputs.py:267-269 | a concept is kept exactly when it is in the list and passes all checks |
| Outputs.PassingConceptsAppend | gearrec/models/outputs.py:267-269 | the filter distributes over concatenation, so it keeps the list order |
| PhysicsLoads.StaticLoadSplitTricycle | gearrec/physics/loads.py:26-82 | ValueError exactly when the main gear is not aft of the nose gear; otherwise nose load × wheelbase = weight × (x_main − x_cg), the two loads sum to the weight, and the fraction is nose load over weight |
| PhysicsLoads.TricycleSplitExample | gearrec/physics/loads.py:26-82 | 10000 N with CG 2.2 m, main 2.5 m and nose 0.5 m splits 1500 N / 8500 N, fraction 0.15 |
| PhysicsLoads.TricycleFractionInUnitInterval | gearrec/physics/loads.py:26-82 | for positive weight the nose fraction is in [0, 1] exactly when the CG lies between the nose and main gear |
| PhysicsLoads.StaticLoadSplitTaildragger | gearrec/physics/loads.py:85-133 | ValueError exactly when the tail wheel is not aft of the main gear; otherwise tail load × wheelbase = weight × (x_cg − x_main), the loads sum to the weight, and the fraction is tail load over weight |
| PhysicsLoads.TaildraggerSplitExample | gearrec/physics/loads.py:85-133 | 8000 N with CG 2.0 m, main 1.8 m and tail 6.0 m puts about 380.95 N on the tail |
| PhysicsLoads.TaildraggerFractionInUnitInterval | gearrec/physics/loads.py:85-133 | the tail fraction is in [0, 1] exactly when the CG lies between the main gear and the tail wheel |
| PhysicsLoads.DynamicLoadFactor | gearrec/physics/loads.py:136-163 | ZeroDivisionError exactly when stroke × efficiency is 0; otherwise (n − 1) · 2g · stroke · efficiency = v², so n > 1 for a real stroke and sink |
| PhysicsLoads.DynamicFactorIsSinkLoadFactor | gearrec/physics/loads.py:159-163 | the loads module and the energy module compute the same load factor |
| PhysicsLoads.TireLoadRequirements | gearrec/physics/loads.py:166-190 | the static requirement is the per-wheel load times the safety factor and the dynamic one is that times the dynamic factor; the static requirement is non-negative for a non-negative load and safety factor, and dynamic ≥ static when the factor is at least 1 |
| PhysicsLoads.TireLoadRequirementsExample | gearrec/physics/loads.py:166-190 | 5000 N at factor 2 and the default safety factor 1.5 needs 7500 N static and 15000 N dynamic |
| PhysicsLoads.EstimateGearPositionsTricycle | gearrec/physics/loads.py:193-244 | the main range is centred on the guess, or 0.024 L aft of the aft CG, ± 0.05 L; the nose range ends 0.05 L aft of its centre (the guess, or 0.08 L) and starts at the larger of 0.05 L and centre − 0.03 L |
| PhysicsLoads.EstimateGearPositionsTaildragger | gearrec/physics/loads.py:247-287 | the main range runs from 0.05 L ahead to 0.03 L aft of its centre (the guess, or 0.07 L ahead of the forward CG); the tail range is [0.85 L, 0.95 L] |
| PhysicsLoads.MainLoadPerWheel | gearrec/physics/loads.py:290-307 | ZeroDivisionError exactly when there are no wheels; otherwise the per-wheel load times the wheel count is the total |
| PhysicsLoads.MainLoadPerWheelExample | gearrec/physics/loads.py:290-307 | 10000 N over two legs is 5000 N per wheel with one wheel per side, 2500 N with two |
| PhysicsEnergy.TouchdownEnergy | gearrec/physics/energy.py:18-44 | ½ m v² is non-negative for a non-negative mass and positive for a positive mass and a non-zero sink rate |
| PhysicsEnergy.TouchdownEnergyScaling | gearrec/physics/energy.py:18-44 | the energy is linear in the mass and quadratic in the sink rate |
| PhysicsEnergy.TouchdownEnergyExample | gearrec/physics/energy.py:18-44 | 1000 kg at 2 m/s gives 2000 J |
| PhysicsEnergy.RequiredShockForce | gearrec/physics/energy.py:47-81 | ValueError exactly when the stroke is not positive or the efficiency is outside [0.5, 1]; otherwise force × stroke × efficiency = energy, and the force is non-negative for non-negative energy |
| PhysicsEnergy.RequiredShockForceExample | gearrec/physics/energy.py:47-81 | 2000 J over 0.2 m at the default efficiency 0.8 needs 12500 N |
| PhysicsEnergy.StrokeRange | gearrec/physics/energy.py:84-120 | ValueError("Max force must be positive") for a non-positive maximum force, ZeroDivisionError for zero efficiency, otherwise min stroke × max force × efficiency = energy; the max stroke absorbs the energy at the minimum force when one is given and positive, else it is twice the min stroke |
| PhysicsEnergy.StrokeRangeOrdered | gearrec/physics/energy.py:84-120 | for positive energy and efficiency and 0 < min force ≤ max force the range is positive and ordered |
| PhysicsEnergy.StrokeBand | gearrec/physics/energy.py:148-156 | every mass band lies within [0.10, 0.40] m and is a proper interval |
| PhysicsEnergy.StrokeRunwayFactor | gearrec/physics/energy.py:162-168 | the runway factor is at least 1 (unknown runway types get 1) |
| PhysicsEnergy.RecommendStrokeRange | gearrec/physics/energy.py:123-177 | the min stroke is always within [0.08, 0.35] and the max within [0.12, 0.50]; a raw value already inside its limits is returned unchanged |
| PhysicsEnergy.RecommendStrokeRangeEnds | gearrec/physics/energy.py:170-174 | each end is the band end times the sink and runway factors, clamped to its limits |
| PhysicsEnergy.StrokeBandMonotone | gearrec/physics/energy.py:148-156 | a heavier aircraft never gets a lower band |
| PhysicsEnergy.RecommendStrokeMonotoneInMass | gearrec/physics/energy.py:123-177 | a heavier aircraft never gets a shorter recommended stroke |
| PhysicsEnergy.RecommendStrokeLightVersusHeavy | gearrec/physics/energy.py:123-177 | at 2 m/s on pavement, an 800 kg aircraft gets a strictly shorter range than a 4000 kg one |
| PhysicsEnergy.RecommendStrokeMonotoneInSink | gearrec/physics/energy.py:158-174 | a higher sink rate never gets a shorter recommended stroke (square-root scaling) |
| PhysicsEnergy.LoadFactorFromSink | gearrec/physics/energy.py:180-210 | ZeroDivisionError exactly when stroke × efficiency is 0; otherwise (n − 1) · 2g · stroke · efficiency = v², so n ≥ 1 for a positive stroke and efficiency and n > 1 when the sink rate is non-zero |
| PhysicsEnergy.LoadFactorFromSinkExample | gearrec/physics/energy.py:180-210 | 2 m/s over 0.2 m at efficiency 0.8 gives n ≈ 2.27 |
| PhysicsGeometry.EstimateFuselageLength | gearrec/physics/geometry.py:31-59 | L³ = k³ · MTOW, so L is k times the cube root of the mass; L is non-negative for k ≥ 0 and positive for positive k and mass |
| PhysicsGeometry.FuselageLengthStrictlyIncreasing | gearrec/physics/geometry.py:31-59 | for k > 0 a heavier aircraft gets a strictly longer fuselage |
| PhysicsGeometry.FuselageLengthExample | gearrec/physics/geometry.py:31-59 | 1000 kg with k = 0.85 gives 8.5 m |
| PhysicsGeometry.TrackRunwayFactor | gearrec/physics/geometry.py:90-96 | the runway factor is within [1, 1.20] |
| PhysicsGeometry.TrackWingFactor | gearrec/physics/geometry.py:98-99 | the wing factor exceeds 1 exactly for a low wing, and is at most 1.10 |
| PhysicsGeometry.TrackRange | gearrec/physics/geometry.py:62-108 | the min track is 0.18 L × factors, raised to 1.5 m; the max is 0.28 L × factors, capped at 6 m |
| PhysicsGeometry.TrackSoftFieldNotNarrower | gearrec/physics/geometry.py:62-108 | for L ≥ 0, no runway type gets a narrower track than pavement |
| PhysicsGeometry.TrackLowWingNotNarrower | gearrec/physics/geometry.py:62-108 | for L ≥ 0, a low wing never gets a narrower track |
| PhysicsGeometry.TrackRangeExample | gearrec/physics/geometry.py:62-108 | a 9 m fuselage on pavement with a high wing gives [1.62, 2.52] m |
| PhysicsGeometry.WheelbaseRange | gearrec/physics/geometry.py:111-151 | taildragger: [max(4, 0.55 L), min(10, 0.75 L)]; anything else: [max(2, 0.25 L), min(6, 0.38 L)] |
| PhysicsGeometry.TaildraggerWheelbaseExceedsTricycle | gearrec/physics/geometry.py:111-151 | the tricycle maximum is always below the taildragger minimum |
| PhysicsGeometry.StrutBand | gearrec/physics/geometry.py:177-186 | every mass band lies within [0.30, 0.90] m and is a proper interval |
| PhysicsGeometry.StrutBandMonotone | gearrec/physics/geometry.py:177-186 | a heavier aircraft never gets a lower band |
| PhysicsGeometry.StrutLengthRange | gearrec/physics/geometry.py:154-198 | the nose strut is the band scaled by 0.75 / 0.85; the main strut is the band, raised to clearance + 0.15 / + 0.30 when a propeller clearance is given; the range is positive and proper |
| PhysicsGeometry.StrutLengthMonotoneInMass | gearrec/physics/geometry.py:154-198 | a heavier aircraft never gets a shorter strut |
| PhysicsGeometry.StrutPropClearanceNeverShortens | gearrec/physics/geometry.py:194-196 | a propeller clearance never shortens the main strut |
| PhysicsGeometry.NoseStrutShorterThanMain | gearrec/physics/geometry.py:189-196 | the nose strut range lies strictly below the main strut range |
| PhysicsGeometry.EstimateCgHeight | gearrec/physics/geometry.py:201-231 | the height is always within [0.8, 2.5] m and equals (0.8 + 0.15 √(m/1000)) × 1.1 (low wing) or × 0.95 when that is inside, 0.8 when it is below and 2.5 when it is above |
| PhysicsGeometry.CgHeightMonotoneInMass | gearrec/physics/geometry.py:201-231 | a heavier aircraft never gets a lower CG estimate |
| PhysicsGeometry.CgHeightLowWingNotLower | gearrec/physics/geometry.py:225-228 | a low wing never gives a lower CG estimate |
| PhysicsGeometry.CgHeightExample | gearrec/physics/geometry.py:201-231 | 1000 kg with a high wing gives 0.9025 m |
| PhysicsGeometry.CheckTipBackMargin | gearrec/physics/geometry.py:234-284 | margin × wheelbase is the distance from the aft CG to the main gear (0 for a non-positive wheelbase); passes exactly when the margin reaches the minimum ratio |
| PhysicsGeometry.TipBackPassesIffDistance | gearrec/physics/geometry.py:234-284 | for a positive wheelbase, passes exactly when the aft CG is at least minimum ratio × wheelbase ahead of the main gear |
| PhysicsGeometry.TipBackExamples | gearrec/physics/geometry.py:234-284 | CG 0.2 m ahead on a 2 m wheelbase passes 10 %; 0.05 m ahead fails |
| PhysicsGeometry.CheckNoseOverMargin | gearrec/physics/geometry.py:287-355 | passes exactly when the CG-to-nose arm is at least braking g × CG height × (1 + margin); the margin ratio times the arm is the arm minus the critical distance (0 for a non-positive arm) |
| PhysicsGeometry.NoseOverPassHasNonNegativeMargin | gearrec/physics/geometry.py:287-355 | a passing check never reports a negative margin |
| PhysicsGeometry.NoseOverMonotoneInBraking | gearrec/physics/geometry.py:287-355 | a design that passes at some braking deceleration passes at every lower one |
| PhysicsGeometry.NoseOverExample | gearrec/physics/geometry.py:287-355 | CG 1.5 m aft of the nose, 1.2 m high, 0.4 g braking: passes with margin 0.68 against 0.08 |
| PhysicsGeometry.CheckGroundClearance | gearrec/physics/geometry.py:358-404 | the height is strut + tire radius − stroke × static fraction; passes exactly when it reaches the required clearance; margin ratio × height = height − required (0 for a non-positive height) |
| PhysicsGeometry.GroundClearanceMonotone | gearrec/physics/geometry.py:358-404 | a longer strut or a larger tire never turns a pass into a fail |
| PhysicsGeometry.GroundClearanceExample | gearrec/physics/geometry.py:358-404 | 0.5 m strut, 0.2 m stroke and 0.2 m radius against 0.25 m passes with margin 0.39 / 0.64 |
| PhysicsGeometry.CheckLateralRollover | gearrec/physics/geometry.py:407-447 | reports the rollover angle against the minimum and passes exactly when it reaches it |
| PhysicsGeometry.LateralRolloverStricterMinimum | gearrec/physics/geometry.py:407-447 | a pass against a minimum angle is a pass against every smaller one |
| PhysicsGeometry.TireDiameterBand | gearrec/physics/geometry.py:472-482 | every load band lies within [0.25, 0.75] m and is a proper interval |
| PhysicsGeometry.TireDiameterBandMonotone | gearrec/physics/geometry.py:472-482 | a heavier load never gets a smaller band |
| PhysicsGeometry.TireRunwayFactor | gearrec/physics/geometry.py:484-490 | the runway factor is within [1, 1.20] |
| PhysicsGeometry.TireRunwayFactorTable | gearrec/physics/geometry.py:484-490 | paved 1.0, grass 1.20, gravel 1.15, any other surface 1.0; paved is the smallest and gravel is below grass |
| PhysicsGeometry.TirePressureFactor | gearrec/physics/geometry.py:492-498 | the pressure factor is within [1, 1.25], and 1 when there is no pressure limit |
| PhysicsGeometry.TirePressureFactorAntitone | gearrec/physics/geometry.py:492-498 | a lower pressure limit never gives a smaller factor, and no limit gives the smallest |
| PhysicsGeometry.EstimateTireDiameter | gearrec/physics/geometry.py:450-500 | each end is the load band's end times the runway factor times the pressure factor, so scaled by between 1 and 1.5; the range starts at 0.25 m or more and is proper; it is the band itself on pavement with no pressure limit |
| PhysicsGeometry.TireDiameterMonotoneInLoad | gearrec/physics/geometry.py:450-500 | a heavier load never gets a smaller diameter |
| PhysicsGeometry.LargerFactorsNotSmaller | gearrec/physics/geometry.py:484-500 | a non-negative band scaled by larger runway and pressure factors is never smaller |
| PhysicsGeometry.TireDiameterSofterSurfaceNotSmaller | gearrec/physics/geometry.py:484-490 | any surface gets at least the paved diameter range |
| PhysicsGeometry.TireDiameterGrassNotBelowGravel | gearrec/physics/geometry.py:484-490 | grass gets at least the gravel diameter range |
| PhysicsGeometry.TireDiameterLowerPressureNotSmaller | gearrec/physics/geometry.py:492-498 | a lower pressure limit, or a limit rather than none, never narrows the diameter range |
| PhysicsGeometry.TireDiameterExamples | gearrec/physics/geometry.py:450-500 | 3000 N on pavement gives [0.30, 0.40] m; 15000 N gives a strictly larger minimum |
| PhysicsTireCatalog.Qualifying | gearrec/physics/tire_catalog.py:155-166 | the filter keeps at most the entries it was given |
| PhysicsTireCatalog.QualifyingStep | gearrec/physics/tire_catalog.py:155-166 | one more catalog entry is appended exactly when it carries 1.1 × the required load and, under a pressure limit, has no known rating above it |
| PhysicsTireCatalog.QualifyingMembers | gearrec/physics/tire_catalog.py:155-166 | an entry is kept exactly when it is in the catalog and qualifies |
| PhysicsTireCatalog.SoftFieldFirstIsStrictWeakOrder | gearrec/physics/tire_catalog.py:172-180 | the key (not soft-field, −width, diameter) orders entries as a strict weak order, as `list.sort` needs |
| PhysicsTireCatalog.SmallestFirstIsStrictWeakOrder | gearrec/physics/tire_catalog.py:181-189 | the key (diameter, width) orders entries as a strict weak order |
| PhysicsTireCatalog.Preference | gearrec/physics/tire_catalog.py:172-189 | whichever key is chosen, it is a strict weak order |
| PhysicsTireCatalog.ToCatalogTire | gearrec/physics/tire_catalog.py:192-199 | the output record copies the name, diameter, width, load and pressure ratings |
| PhysicsTireCatalog.ToCatalogTires | gearrec/physics/tire_catalog.py:191-201 | one output record per chosen entry, in order |
| PhysicsTireCatalog.FindMatchingTires | gearrec/physics/tire_catalog.py:130-201 | the loop collects the qualifying entries, sorts them and converts the first `max_results` of them, giving exactly the declarative search result |
| PhysicsTireCatalog.ChosenEntriesProperties | gearrec/physics/tire_catalog.py:130-201 | exactly `min(max_results, number of qualifying entries)` entries, all qualifying catalog entries, sorted by the key; no qualifying entry left out sorts strictly ahead of one reported; with room for all, every qualifying entry is reported |
| PhysicsTireCatalog.NoQualifyingEntryNoResult | gearrec/physics/tire_catalog.py:168-169 | when no entry qualifies the search returns an empty list |
| PhysicsTireCatalog.MatchingTiresQualify | gearrec/physics/tire_catalog.py:156-166 | every returned tire is a catalog entry, carries the load with a 10 % margin and respects the pressure limit |
| PhysicsTireCatalog.SmallestFirstOrder | gearrec/physics/tire_catalog.py:181-189 | without the soft-field preference, results ascend by diameter, then by width |
| PhysicsTireCatalog.SoftFieldFirstOrder | gearrec/physics/tire_catalog.py:172-180 | with the soft-field preference, suitable tires come first, then wider, then smaller diameter |
| PhysicsTireCatalog.SearchIsStable | gearrec/physics/tire_catalog.py:172-189 | entries that tie on the key keep their catalog order |
| PhysicsTireCatalog.HeavyLowPressureExample | gearrec/physics/tire_catalog.py:33-127 | 20 kN under a 200 kPa limit leaves only the 26x10.5-6 bush tire |
| PhysicsTireCatalog.BaseDiameterRange | gearrec/physics/tire_catalog.py:225-240 | every base diameter band lies within [0.25, 0.75] m and is proper |
| PhysicsTireCatalog.BaseWidthRange | gearrec/physics/tire_catalog.py:225-240 | every base width band lies within [0.08, 0.30] m and is proper |
| PhysicsTireCatalog.BaseRangesMonotone | gearrec/physics/tire_catalog.py:225-240 | a heavier load never gets a smaller base band |
| PhysicsTireCatalog.RunwayDiameterFactor | gearrec/physics/tire_catalog.py:243-248 | the runway diameter factor is within [1, 1.15] |
| PhysicsTireCatalog.RunwayWidthFactor | gearrec/physics/tire_catalog.py:243-248 | the runway width factor is within [1, 1.30] |
| PhysicsTireCatalog.PressureDiameterFactor | gearrec/physics/tire_catalog.py:250-257 | the pressure diameter factor is within [1, 1.20] |
| PhysicsTireCatalog.PressureWidthFactor | gearrec/physics/tire_catalog.py:250-257 | the pressure width factor is within [1, 1.30] |
| PhysicsTireCatalog.DiameterFactor | gearrec/physics/tire_catalog.py:243-257 | the combined diameter factor is within [1, 1.15 × 1.20] |
| PhysicsTireCatalog.WidthFactor | gearrec/physics/tire_catalog.py:243-257 | the combined width factor is within [1, 1.30 × 1.30] |
| PhysicsTireCatalog.ScaledRangeProperties | gearrec/physics/tire_catalog.py:259-266 | scaling a proper band by a factor in [1, F] keeps it proper, keeps each end between itself and F times itself, and keeps the ratio of the ends |
| PhysicsTireCatalog.EstimateTireDimensions | gearrec/physics/tire_catalog.py:204-269 | the diameter range is the base diameter range with both ends times the diameter factor (runway × pressure), and the width range likewise with the width factor; both ranges are proper; each end lies between the base end and the base end times the largest combined factor; each range keeps the proportions of its base band |
| PhysicsTireCatalog.ScaledRangeMonotone | gearrec/physics/tire_catalog.py:259-266 | a band no larger, scaled by a factor no larger, gives a range no larger |
| PhysicsTireCatalog.EstimateMonotoneInLoad | gearrec/physics/tire_catalog.py:204-269 | a heavier load never gets smaller ranges |
| PhysicsTireCatalog.EstimateMonotoneInPressureFactors | gearrec/physics/tire_catalog.py:250-266 | larger pressure factors never give smaller ranges |
| PhysicsTireCatalog.EstimateLowerPressureLimitNotSmaller | gearrec/physics/tire_catalog.py:250-257 | a lower pressure limit never gives smaller ranges, and no limit gives the smallest |
| PhysicsTireCatalog.EstimateSofterSurfaceNotSmaller | gearrec/physics/tire_catalog.py:243-248 | gravel gives ranges at least as large as pavement, and grass at least as large as gravel |
| PhysicsTireCatalog.EstimatePavedNoLimitIsBase | gearrec/physics/tire_catalog.py:204-269 | on pavement with no pressure limit the ranges are exactly the base bands |
| Scorer.NewGearScorer | gearrec/scoring/scorer.py:35-43 | the scorer keeps the priorities and their normalized weights, which form a distribution for valid priorities |
| Scorer.Clamp01 | gearrec/scoring/scorer.py:98 | the result is in [0, 1] and leaves a score already in [0, 1] unchanged |
| Scorer.TrackBonus | gearrec/scoring/scorer.py:128-135 | the track bonus is within [0, 0.15] |
| Scorer.StrokeBonus | gearrec/scoring/scorer.py:137-142 | the stroke bonus is within [0, 0.10] |
| Scorer.SoftFieldDeduction | gearrec/scoring/scorer.py:145-150 | the deduction is within [0, 0.15] and zero on pavement |
| Scorer.ScoreRobustness | gearrec/scoring/scorer.py:102-152 | the robustness score is within [0.35, 1] |
| Scorer.RobustnessMonotoneInTrack | gearrec/scoring/scorer.py:128-150 | a wider track midpoint never lowers robustness |
| Scorer.RobustnessMonotoneInStroke | gearrec/scoring/scorer.py:137-150 | a longer stroke midpoint never lowers robustness |
| Scorer.RobustnessFixedBonus | gearrec/scoring/scorer.py:120-122 | fixed gear scores exactly 0.15 more robustness than retractable gear |
| Scorer.RobustnessSoftFieldNotHigher | gearrec/scoring/scorer.py:144-150 | a soft field never scores higher robustness than pavement |
| Scorer.DragStrutBonus | gearrec/scoring/scorer.py:180-185 | the strut drag bonus is within [0, 0.10] |
| Scorer.ScoreDrag | gearrec/scoring/scorer.py:154-187 | the drag score is within [0, 1], and within [0.5, 0.65] for fixed gear |
| Scorer.RetractableDragExact | gearrec/scoring/scorer.py:170-172 | retractable gear always scores exactly 0.9 on drag |
| Scorer.RetractableDragBeatsFixed | gearrec/scoring/scorer.py:154-187 | any retractable concept beats any fixed one on drag |
| Scorer.MassStrutBonus | gearrec/scoring/scorer.py:209-216 | the strut mass bonus is within [0, 0.15] |
| Scorer.MassLoadAdjustment | gearrec/scoring/scorer.py:218-226 | the load adjustment is within [−0.05, 0.10] |
| Scorer.ScoreMass | gearrec/scoring/scorer.py:189-228 | the mass score is within [0.45, 0.95] |
| Scorer.MassAntitone | gearrec/scoring/scorer.py:209-226 | a shorter strut and a lighter main load never score worse on mass |
| Scorer.MassFixedBonus | gearrec/scoring/scorer.py:205-207 | fixed gear scores exactly 0.20 more on mass than retractable gear |
| Scorer.ScoreSimplicity | gearrec/scoring/scorer.py:230-255 | the simplicity score is within [0, 1] |
| Scorer.SimplicityTable | gearrec/scoring/scorer.py:230-255 | the four values are 0.9, 0.85, 0.6 and 0.55 for taildragger/tricycle × fixed/retractable |
| Scorer.MarginPenalty | gearrec/scoring/scorer.py:266-276 | 0.15 exactly for a failed check, 0.05 exactly for a pass below 1.2 × the limit, 0 exactly for a comfortable pass |
| Scorer.PenaltySum | gearrec/scoring/scorer.py:264-288 | the uncapped sum is within [0, 0.85] |
| Scorer.ChecksPenalty | gearrec/scoring/scorer.py:257-290 | the penalty is the sum capped at 0.8, and zero exactly when every check passed and neither margin is marginal |
| Scorer.PenaltyMonotoneInFailures | gearrec/scoring/scorer.py:278-290 | failing a check never lowers the penalty; failing the ground clearance adds 0.20 up to the cap |
| Scorer.PenaltyCapReached | gearrec/scoring/scorer.py:264-290 | with every check failed the increments add to 0.85 and the cap gives 0.8 |
| Scorer.WeightedScore | gearrec/scoring/scorer.py:86-93 | for a weight distribution and sub-scores in [0, 1] the weighted sum is in [0, 1] |
| Scorer.FinalScore | gearrec/scoring/scorer.py:86-98 | the score is in [0, 1]; for a weight distribution and a valid breakdown it is the weighted sum times (1 − penalty), unclamped |
| Scorer.ScoreConcept | gearrec/scoring/scorer.py:45-100 | the breakdown holds the four sub-scores and the penalty, is valid, and the final score in [0, 1] is computed from it with the scorer's weights |
| Scorer.NoPenaltyScoreIsWeightedAverage | gearrec/scoring/scorer.py:45-100 | with valid priorities and no penalty, the final score is exactly the weighted average of the sub-scores |
| Scorer.PenalisedScoreUnclamped | gearrec/scoring/scorer.py:95-98 | a convex combination times (1 − penalty) is already in [0, 1], so the clamp never binds |
| Candidates.NewGearGenerator | gearrec/generator/candidates.py:75-104 | the generator's weights are the MLW and MTOW in newtons; the touchdown energy is that of the MLW (positive for valid inputs); the fuselage length is the cube-root estimate; the CG height is within [0.8, 2.5] m; the stroke range is within its clamps; the scorer's weights are the normalized priorities |
| Candidates.StrokeSamples | gearrec/generator/candidates.py:182-191 | three samples: the minimum, the midpoint and the maximum of the recommended stroke range |
| Candidates.GearTypes | gearrec/generator/candidates.py:143-146 | retractable only when retractable gear is required, else fixed and retractable |
| Candidates.WheelConfigs | gearrec/generator/candidates.py:150-157 | one layout below 1500 kg, two above; (1, 1) is offered below 4000 kg and (2, 1) from 1500 kg; every leg has one or two wheels |
| Candidates.GetValidConfigs | gearrec/generator/candidates.py:136-180 | the nested loops produce exactly the declarative enumeration, in the generator's order |
| Candidates.StrokeConfigsStep | gearrec/generator/candidates.py:161-179 | one more stroke sample appends its tricycle configuration and, for fixed gear, its taildragger one |
| Candidates.WheelLayoutConfigsStep | gearrec/generator/candidates.py:160-179 | one more wheel layout appends its configurations for every stroke sample |
| Candidates.AllConfigsStep | gearrec/generator/candidates.py:159-179 | one more gear type appends its configurations for every layout |
| Candidates.StrokeConfigsCount | gearrec/generator/candidates.py:161-179 | each stroke sample gives two configurations for fixed gear and one for retractable |
| Candidates.WheelLayoutConfigsCount | gearrec/generator/candidates.py:160-179 | the count is layouts × samples × configurations per sample |
| Candidates.ValidConfigsCount | gearrec/generator/candidates.py:136-180 | 3 configurations per wheel layout when retractable gear is required, else 9 |
| Candidates.StrokeConfigsShape | gearrec/generator/candidates.py:161-179 | each configuration has the given gear type and wheels and one of the stroke samples; taildraggers only for fixed gear, with one tail wheel |
| Candidates.WheelLayoutConfigsShape | gearrec/generator/candidates.py:160-179 | the shape holds across all wheel layouts |
| Candidates.AllConfigsShape | gearrec/generator/candidates.py:159-179 | the shape holds across all gear types |
| Candidates.ValidConfigsShape | gearrec/generator/candidates.py:136-180 | every enumerated configuration is retractable when required, a taildragger only with fixed gear and one tail wheel, has one or two wheels per leg, and uses a stroke sample |
| Candidates.CalculateGeometry | gearrec/generator/candidates.py:251-289 | the stroke range is the configured stroke ± 10 %, centred on it; the track is within [1.5, 6] m; the wheelbase is that of the configuration; the main strut clears the propeller by 0.15 m; the nose strut range starts no higher than the main one; the main strut range is positive and proper |
| Candidates.LoadSplitFor | gearrec/generator/candidates.py:294-332 | the split of either configuration puts the whole landing weight on the gear |
| Candidates.CalculateLoads | gearrec/generator/candidates.py:291-352 | the loads sum to the landing weight, the per-wheel load times the main-wheel count is the main load, the energy is the touchdown energy and the average force absorbs it over the stroke at 80 % efficiency; a failing split, no wheels or no stroke is an error, and otherwise the record is built exactly when the nose fraction is within [0, 1] |
| Candidates.CalculateTireSuggestion | gearrec/generator/candidates.py:354-390 | the required per-wheel load is 1.5 × the static one; the diameter range is proper and starts at 0.25 m or more; a width of 0.40 × the mid diameter is suggested exactly on grass or gravel; it succeeds for a positive stroke and non-negative load and fails for a zero stroke or negative load |
| Candidates.MarginChecks | gearrec/generator/candidates.py:403-460 | a tricycle gets the two safety checks; a taildragger gets two plain check records, and fails (division by zero) exactly when the mid wheelbase is 0 |
| Candidates.RunChecks | gearrec/generator/candidates.py:392-495 | a tricycle always gets checks: the tip-back limit is 0.15 and passes exactly at that margin, lateral stability passes exactly at 25°, and the propeller clearance passes exactly when no clearance is required or the ground clearance passes; a taildragger raises (`AttributeError` on `margin_value`) |
| Candidates.PassesHardConstraints | gearrec/generator/candidates.py:497-516 | a configuration passes exactly when it is not fixed gear under a retractable requirement and the propeller clearance is met |
| Candidates.NoseLoadBullet | gearrec/generator/candidates.py:566-578 | the nose-load bullet quotes the percentage and is "ideal" exactly within 8-15 %, "low" exactly below 8 % |
| Candidates.RunwayNotes | gearrec/generator/candidates.py:559-565 | a grass note exactly on grass, a gravel note exactly on gravel, at most one |
| Candidates.CheckNotes | gearrec/generator/candidates.py:583-590 | "margins OK" exactly when both margins passed; each warning exactly when its margin failed |
| Candidates.Explanation | gearrec/generator/candidates.py:518-592 | the rationale bullets for configuration, gear type and wheel count come first; then the runway, nose-load and check notes, with each note present exactly under its condition; 5 to 7 bullets |
| Candidates.GenerateExplanation | gearrec/generator/candidates.py:518-592 | the appending method builds exactly the declarative explanation |
| Candidates.TryBuildConcept | gearrec/generator/candidates.py:203-245 | a taildragger always raises; a concept that is built passes the hard constraints |
| Candidates.BuildConcept | gearrec/generator/candidates.py:193-249 | exceptions are swallowed into None; a built concept is consistent with its configuration, keeps its stroke and is never a taildragger or fixed gear under a retractable requirement |
| Candidates.TricycleReachesChecks | gearrec/generator/candidates.py:291-390 | for a tricycle with a wheel, a positive stroke and a nose fraction in [0, 1], the loads and tire suggestion are computed without error |
| Candidates.BuiltConcepts | gearrec/generator/candidates.py:114-120 | only built concepts are kept, at most one per configuration |
| Candidates.BuiltConceptsStep | gearrec/generator/candidates.py:116-120 | one more configuration appends its concept exactly when it is built |
| Candidates.HigherScoreIsStrictWeakOrder | gearrec/generator/candidates.py:122 | sorting by score descending is a strict weak order |
| Candidates.SelectConcepts | gearrec/generator/candidates.py:126-134 | six or more passing concepts give the first six; three to six give all of them; otherwise the first six of all candidates; at most six are returned, all taken from the sorted list |
| Candidates.PrefixIsSubsequence | gearrec/generator/candidates.py:126-134 | a prefix of a subsequence is a subsequence |
| Candidates.PassingIsSubsequence | gearrec/generator/candidates.py:126 | the passing filter keeps the list order |
| Candidates.SelectionKeepsOrder | gearrec/generator/candidates.py:122-134 | the selection is an order-preserving subsequence of the sorted candidates |
| Candidates.BuildAll | gearrec/generator/candidates.py:114-120 | the loop collects exactly the concepts that build |
| Candidates.GenerateCandidates | gearrec/generator/candidates.py:106-134 | the method returns exactly the declarative candidate list |
| Candidates.PassingConceptsNonIncreasing | gearrec/generator/candidates.py:122-126 | filtering a list sorted by descending score keeps it sorted |
| Candidates.CandidatesProperties | gearrec/generator/candidates.py:106-134 | at most six candidates, in non-increasing score order, each built from an enumerated configuration |
| Candidates.CandidatesSortStable | gearrec/generator/candidates.py:122 | concepts with equal scores keep their enumeration order |
| Candidates.Warnings | gearrec/generator/candidates.py:626-641 | the no-passing warning exactly when no concept passes, the sink-rate warning exactly above 3 m/s, the tire warning exactly on grass or gravel |
| Candidates.Assumptions | gearrec/generator/candidates.py:614-623 | seven assumptions, the first three quoting the fuselage length, CG height and touchdown energy |
| Candidates.GenerateResult | gearrec/generator/candidates.py:594-651 | a validation error exactly when there are no concepts (the result needs at least one); otherwise the result holds the candidates, the warnings, the assumptions and the input summary |
| TireModels.TireSpec.RatedLoadN | gearrec/tire_catalog/models.py:37-40 | the newton rating divided by 4.44822 is the pound rating, and is at least the pound figure |
| TireModels.TireSpec.OutsideDiameterM | gearrec/tire_catalog/models.py:42-47 | present exactly when the inch diameter is, and equal to it in metres (0.0254 m per inch) |
| TireModels.TireSpec.SectionWidthM | gearrec/tire_catalog/models.py:49-54 | present exactly when the inch width is, and equal to it in metres |
| TireModels.ImportedTireSpec | gearrec/tire_catalog/import_goodyear_2022.py:187-202 | an imported record has source "goodyear_2022", the parsed size and load, the raw line and the page, and no rim, tread or loaded radius |
| TireModels.TireSpecConversionExample | gearrec/tire_catalog/models.py:37-54 | 1600 lb, 17.5 in and 6.0 in convert to 7117.152 N, 0.4445 m and 0.1524 m |
| TireMatcher.NToLbf | gearrec/tire_catalog/matcher.py:23-25 | the pound figure divided by 0.224809 gives back the newtons; it is non-negative and no larger for a non-negative force |
| TireMatcher.LbfToN | gearrec/tire_catalog/matcher.py:28-30 | the newton figure divided by 4.44822 gives back the pounds |
| TireMatcher.KpaToPsi | gearrec/tire_catalog/matcher.py:33-35 | the psi figure divided by 0.145038 gives back the kPa |
| TireMatcher.InToM | gearrec/tire_catalog/matcher.py:38-40 | the metres divided by 0.0254 give back the inches |
| TireMatcher.MToIn | gearrec/tire_catalog/matcher.py:43-45 | the inches times 0.0254 give back the metres |
| TireMatcher.ConversionExamples | gearrec/tire_catalog/matcher.py:23-35 | 1000 N ≈ 224.8 lbf, 100 lbf ≈ 444.8 N, 100 kPa ≈ 14.5 psi |
| TireMatcher.NewtonRoundTrip | gearrec/tire_catalog/matcher.py:18-30 | N → lbf → N is within 0.01 N of the start for forces up to 90 kN, and never exact for a non-zero force, since the two constants are not reciprocals |
| TireMatcher.InchRoundTrip | gearrec/tire_catalog/matcher.py:38-45 | inches → metres → inches and back are both exact |
| TireMatcher.TireSpecUnitsAgree | gearrec/tire_catalog/matcher.py:28-45 | the tire record's own conversions agree with the matcher's |
| TireMatcher.SafetyFactor | gearrec/tire_catalog/matcher.py:49-53 | 1.10 exactly on pavement, otherwise more (1.25 on gravel) |
| TireMatcher.MarginScore | gearrec/tire_catalog/matcher.py:79-92 | the score is within [0.6, 1]: 1 exactly for a 15-40 % margin, 0.7 exactly below 10 %, 0.6 exactly above 60 % |
| TireMatcher.ScoreTireForLoad | gearrec/tire_catalog/matcher.py:63-94 | an insufficient tire scores 0 with margin −1; ZeroDivisionError exactly for a sufficient tire and a zero requirement; otherwise requirement × (1 + margin) is the rating and the score is the margin's |
| TireMatcher.TightMarginUnreachable | gearrec/tire_catalog/matcher.py:63-94 | a tire that passes the safety factor has a margin of at least the factor's excess, so the tight-margin score 0.7 is never given |
| TireMatcher.ScoreTireForPressure | gearrec/tire_catalog/matcher.py:97-116 | 0 exactly above a known limit, 0.8 exactly for a limit and an unknown rating, otherwise 1; no limit gives 1 with no reasons |
| TireMatcher.DiameterFactor | gearrec/tire_catalog/matcher.py:141-161 | the diameter factor is at least 0.5, and its only error is division by zero |
| TireMatcher.DiameterFactorProperties | gearrec/tire_catalog/matcher.py:141-161 | it fails exactly on a zero bound it divides by; it is 1 inside the target and below 1 outside a positive target |
| TireMatcher.WidthFactor | gearrec/tire_catalog/matcher.py:164-184 | the width factor is at least 0.4, and its only error is division by zero |
| TireMatcher.WidthFactorProperties | gearrec/tire_catalog/matcher.py:164-184 | it fails exactly on a zero lower bound under a narrow tire; it is 1 inside the target and 1.05 for a wider tire on a soft field; on pavement it is never above 1 and below 1 outside a positive target |
| TireMatcher.SoftFieldBonus | gearrec/tire_catalog/matcher.py:186-191 | the bonus is at least 1, and exactly 1 on pavement |
| TireMatcher.DiameterStep | gearrec/tire_catalog/matcher.py:141-161 | with no target or no known diameter the step is neutral; its factor is at least 0.5 |
| TireMatcher.WidthStep | gearrec/tire_catalog/matcher.py:164-184 | with no target or no known width the step is neutral; its factor is at least 0.4 |
| TireMatcher.StepApplied | gearrec/tire_catalog/matcher.py:141-184 | a step fails exactly when its factor does, and keeps a positive score positive |
| TireMatcher.Scaled | gearrec/tire_catalog/matcher.py:186-191 | scaling a positive score by a positive factor keeps it positive |
| TireMatcher.ScoreFromSteps | gearrec/tire_catalog/matcher.py:119-193 | the first failing step's error is the result's; otherwise the score is at most 1 and positive for positive factors |
| TireMatcher.StepsProduct | gearrec/tire_catalog/matcher.py:119-193 | the dimension score is min(1, diameter factor × width factor × bonus), with the reasons in step order |
| TireMatcher.DimensionScore | gearrec/tire_catalog/matcher.py:119-193 | the dimension score is in (0, 1] and its only error is division by zero |
| TireMatcher.StepsNeutral | gearrec/tire_catalog/matcher.py:119-193 | neutral steps and no bonus score exactly 1 |
| TireMatcher.StepsPenalised | gearrec/tire_catalog/matcher.py:119-193 | a penalising step and no bonus score strictly below 1 |
| TireMatcher.DiameterStepInRange | gearrec/tire_catalog/matcher.py:145-147 | a diameter inside its target leaves the score unchanged |
| TireMatcher.WidthStepInRange | gearrec/tire_catalog/matcher.py:168-169 | a width inside its target leaves the score unchanged |
| TireMatcher.DimensionScoreInRange | gearrec/tire_catalog/matcher.py:119-193 | a tire inside both targets on pavement scores exactly 1 |
| TireMatcher.DiameterStepPaved | gearrec/tire_catalog/matcher.py:141-161 | on pavement with positive targets the diameter step never raises the score, and lowers it outside the target |
| TireMatcher.WidthStepPaved | gearrec/tire_catalog/matcher.py:164-184 | on pavement with positive targets the width step never raises the score, and lowers it outside the target |
| TireMatcher.PavedOutOfRangePenalised | gearrec/tire_catalog/matcher.py:119-193 | on pavement a tire outside a positive target scores strictly below 1 |
| TireMatcher.ApplySoftFieldBonus | gearrec/tire_catalog/matcher.py:186-191 | the in-place multiplications give exactly the score times the bonus |
| TireMatcher.ApplyDiameter | gearrec/tire_catalog/matcher.py:141-161 | the in-place diameter step gives exactly the declarative step |
| TireMatcher.ApplyWidth | gearrec/tire_catalog/matcher.py:164-184 | the in-place width step gives exactly the declarative step |
| TireMatcher.ScoreTireForDimensions | gearrec/tire_catalog/matcher.py:119-193 | the method computes exactly the declarative dimension score |
| TireMatcher.FirstChartMatch | gearrec/tire_catalog/matcher.py:218-232 | the first chart row for the aircraft with this tire size at this position, or none exactly when no row matches |
| TireMatcher.CommonGaSizeReplaceRedundant | gearrec/tire_catalog/matcher.py:235-237 | on an upper-cased size the `replace('X', 'x')` test adds nothing: it is in the common set exactly when the size is |
| TireMatcher.ApplicationBonus | gearrec/tire_catalog/matcher.py:196-241 | 0.15 exactly when a chart row matches; 0.03 exactly when rows exist, none matches, MTOW is below 2000 kg and the size is a common light-GA size; otherwise 0 |
| TireMatcher.EmptyNameMatchesEveryModel | gearrec/tire_catalog/matcher.py:220 | an empty aircraft name matches every chart model, since "" is in every string |
| TireMatcher.ScoreTireForApplication | gearrec/tire_catalog/matcher.py:196-241 | the early-returning loop gives exactly the declarative bonus and reasons |
| TireMatcher.CombinedScore | gearrec/tire_catalog/matcher.py:306-310 | the combined score is `min(1, load × pressure × dimensions + bonus)`: the sum when it is at most 1, and 1 when the sum reaches 1; always in (0, 1] |
| TireMatcher.BuildMatch | gearrec/tire_catalog/matcher.py:306-321 | the record built for an eligible tire is a match for the request |
| TireMatcher.CompleteMatch | gearrec/tire_catalog/matcher.py:298-321 | the dimension and application scores complete a match, or the dimension score divides by zero |
| TireMatcher.MatchTire | gearrec/tire_catalog/matcher.py:281-321 | a tire yields a match exactly when it carries the factored load and respects the pressure limit; the match's score and reasons combine the tire's load, pressure, dimension and application results; any error is division by zero |
| TireMatcher.ScoredMatches | gearrec/tire_catalog/matcher.py:278-322 | every collected match is for a catalog tire and the request, with its score combined from its partial scores, and every eligible tire is matched |
| TireMatcher.ScoredMatchesPrefixErr | gearrec/tire_catalog/matcher.py:281-322 | an error on part of the catalog is an error on the whole catalog |
| TireMatcher.MatchTiresSpec | gearrec/tire_catalog/matcher.py:244-327 | `match_tires` fails only with division by zero |
| TireMatcher.SortedCutProperties | gearrec/tire_catalog/matcher.py:324-327 | the cut sorted list has exactly `min(max_results, number of matches)` matches, by non-increasing score, all from the list; no match left out scores above one kept; all of them when there is room |
| TireMatcher.CutMatchesProperties | gearrec/tire_catalog/matcher.py:244-327 | the cut list has exactly `min(max_results, number of matches)` entries, best first, holds only matches for the request scored from their parts, keeps the top scores (no match left out scores above one kept), and every eligible tire when there is room |
| TireMatcher.MatchTiresProperties | gearrec/tire_catalog/matcher.py:244-327 | exactly `min(max_results, number of matches)` matches, best score first, each an eligible catalog tire whose score combines its partial scores; no eligible tire's match left out scores above one kept; all eligible tires when there is room |
| TireMatcher.ScoredMatchesLength | gearrec/tire_catalog/matcher.py:281-322 | at most one match per catalog tire |
| TireMatcher.MatchTiresNoDivisionByZero | gearrec/tire_catalog/matcher.py:244-327 | with a positive load requirement and positive targets, matching never fails |
| TireMatcher.MatchTires | gearrec/tire_catalog/matcher.py:244-327 | the loop, sort and cut give exactly the declarative result |
| TireMatcher.PressureLimitPsi | gearrec/tire_catalog/matcher.py:353-356 | present exactly when the inputs give a limit, and equal to it in psi |
| TireMatcher.NoseTarget | gearrec/tire_catalog/matcher.py:413-417 | the nose target bounds are 60 % and 85 % of the main ones, so strictly smaller for positive bounds |
| TireMatcher.NoseDynamicLoadN | gearrec/tire_catalog/matcher.py:404-407 | the larger of 1.5 × static and static + 20 % of the main dynamic load |
| TireMatcher.RunwayNotes | gearrec/tire_catalog/matcher.py:439-442 | a grass note exactly on grass, a gravel note exactly on gravel |
| TireMatcher.ChoiceNotes | gearrec/tire_catalog/matcher.py:352-442 | the pressure-limit note comes first exactly when there is a limit; each "options found" note exactly when that position has matches |
| TireMatcher.ChoiceWarnings | gearrec/tire_catalog/matcher.py:393-436 | the disclaimer comes first; each "no suitable tire" warning exactly when that position has no match |
| TireMatcher.TireChoice | gearrec/tire_catalog/matcher.py:330-451 | choosing tires fails only with division by zero |
| TireMatcher.TireChoiceWarnings | gearrec/tire_catalog/matcher.py:393-436 | a choice's warnings start with the disclaimer and flag exactly the positions with no match |
| TireMatcher.TireChoiceMatches | gearrec/tire_catalog/matcher.py:370-431 | at most five tires per position, best first, each a match for its position's request |
| TireMatcher.BuildMainRequest | gearrec/tire_catalog/matcher.py:370-391 | the main request carries the concept's dynamic and static per-wheel loads in pounds, the runway, the limit and the targets |
| TireMatcher.BuildNoseRequest | gearrec/tire_catalog/matcher.py:398-431 | the nose request carries the conservative nose load and the scaled-down targets |
| TireMatcher.RecordPosition | gearrec/tire_catalog/matcher.py:393-396 | a position appends its "found" note when it has matches and its warning when it has none |
| TireMatcher.AddRunwayNote | gearrec/tire_catalog/matcher.py:439-442 | the runway note, if any, is appended |
| TireMatcher.ChooseTiresForConcept | gearrec/tire_catalog/matcher.py:330-451 | the method builds exactly the declarative choice |
| GoodyearPatterns.DigitRun | gearrec/tire_catalog/import_goodyear_2022.py:25-40 | the run of `\d*` from a position ends at a non-digit or the end, and holds only digits |
| GoodyearPatterns.SpaceRun | gearrec/tire_catalog/import_goodyear_2022.py:25-40 | the run of `\s*` from a position stays within the text and holds only whitespace |
| GoodyearPatterns.OptionalFraction | gearrec/tire_catalog/import_goodyear_2022.py:26 | `(?:\.\d+)?` moves only over size characters and, when it moves, stops at a non-digit or the end |
| GoodyearPatterns.XSizeEnd | gearrec/tire_catalog/import_goodyear_2022.py:25-28 | a match of the `x` size pattern is non-empty and made only of size characters |
| GoodyearPatterns.AltSizeEnd | gearrec/tire_catalog/import_goodyear_2022.py:31-34 | a match of the width-less size pattern is non-empty and made only of size characters |
| GoodyearPatterns.MetricSizeEnd | gearrec/tire_catalog/import_goodyear_2022.py:37-40 | a match of the metric size pattern is non-empty and made only of size characters |
| GoodyearPatterns.FollowedBySpace | gearrec/tire_catalog/import_goodyear_2022.py:26 | the trailing `\s+` keeps a match exactly when whitespace follows the captured size |
| GoodyearPatterns.SizeMatchEnd | gearrec/tire_catalog/import_goodyear_2022.py:69-73 | the first of the three patterns that matches gives the size; it is followed by whitespace and made of size characters |
| GoodyearPatterns.SizeIsFirstWord | gearrec/tire_catalog/import_goodyear_2022.py:78-79 | whichever pattern matched, the captured size is exactly the first whitespace-delimited word of the line |
| GoodyearPatterns.MetricPatternSubsumed | gearrec/tire_catalog/import_goodyear_2022.py:69-73 | whenever the metric pattern matches, the `x` pattern already matched the same size, so the metric pattern never decides |
| GoodyearPatterns.ParseNumber | gearrec/tire_catalog/import_goodyear_2022.py:43-51 | an empty string gives nothing; the values of other texts are stated by the lemmas ParseNumberOfDigits, ParseNumberOfNatText, ParseNumberIgnoresComma, ParseNumberUnsigned and ParseNumberOfDecimalText below |
| GoodyearPatterns.NatText | gearrec/tire_catalog/import_goodyear_2022.py:43-51 | the decimal text of a natural number is a non-empty run of digits |
| GoodyearPatterns.NatTextValue | gearrec/tire_catalog/import_goodyear_2022.py:43-51 | the digits of a natural number read back as that number |
| GoodyearPatterns.ParseNumberOfDigits | gearrec/tire_catalog/import_goodyear_2022.py:43-51 | a non-empty all-digit text parses as its decimal value |
| GoodyearPatterns.ParseNumberOfNatText | gearrec/tire_catalog/import_goodyear_2022.py:43-51 | printing any natural number and parsing it back gives the number |
| GoodyearPatterns.ParseNumberIgnoresComma | gearrec/tire_catalog/import_goodyear_2022.py:47 | a comma between two unpadded parts is dropped before parsing |
| GoodyearPatterns.ParseNumberExamples | gearrec/tire_catalog/import_goodyear_2022.py:43-51 | "1,600" parses as 1600, "17.50" as 17.5, "-3" as -3, and "TL" as nothing |
| GoodyearPatterns.ParseNumberUnsigned | gearrec/tire_catalog/import_goodyear_2022.py:47-49 | unpadded text that starts with a digit and holds no comma parses as an unsigned decimal |
| GoodyearPatterns.ParseNumberOfDecimalText | gearrec/tire_catalog/import_goodyear_2022.py:43-51 | digits, a point and digits parse as the whole part plus the fraction scaled by its number of places |
| GoodyearImport.ReadLeadingTokens | gearrec/tire_catalog/import_goodyear_2022.py:102-115 | at most the first two tokens are taken, an optional ply rating then an optional tube-type code |
| GoodyearImport.PlyRatingAt | gearrec/tire_catalog/import_goodyear_2022.py:103-108 | a ply rating is read only from a token of one or two digits with an optional PR suffix |
| GoodyearImport.TubeTypeAt | gearrec/tire_catalog/import_goodyear_2022.py:110-115 | a tube-type code is read only when the upper-cased token is TT, TL or TT/TL |
| GoodyearImport.ColumnIn | gearrec/tire_catalog/import_goodyear_2022.py:144-170 | a load column takes the value at the cursor only when it lies strictly inside the column's range |
| GoodyearImport.ReadLeading | gearrec/tire_catalog/import_goodyear_2022.py:102-115 | the token walk returns exactly the declarative leading tokens |
| GoodyearImport.ReadPlyRating | gearrec/tire_catalog/import_goodyear_2022.py:103-108 | the ply step reads the rating at the first token and advances by one exactly when it found one |
| GoodyearImport.ReadTubeType | gearrec/tire_catalog/import_goodyear_2022.py:110-115 | the tube-type step reads the code at the cursor and advances by one exactly when it found one |
| GoodyearImport.CollectTokens | gearrec/tire_catalog/import_goodyear_2022.py:119-129 | the loop collects exactly the numeric values and the part-number candidates of the remaining tokens, in order |
| GoodyearImport.AssignColumns | gearrec/tire_catalog/import_goodyear_2022.py:135-170 | the column assignment returns exactly the declarative load columns |
| GoodyearImport.ScanTrailing | gearrec/tire_catalog/import_goodyear_2022.py:172-178 | the trailing loop finds exactly the declarative outside diameter and section width |
| GoodyearImport.ParseTireDataLine | gearrec/tire_catalog/import_goodyear_2022.py:54-202 | the parser returns exactly the declarative reading of the line |
| GoodyearImport.ReadTokens | gearrec/tire_catalog/import_goodyear_2022.py:81-202 | the token reader returns exactly the declarative specification read from the tokens |
| GoodyearImport.TireDataLineShape | gearrec/tire_catalog/import_goodyear_2022.py:64-202 | a blank line gives nothing; a parsed line starts with a size, its size is the upper-cased first word, it records its source, line and page, and its rated load lies in (100, 100000) |
| GoodyearImport.TireSpecOfTokensShape | gearrec/tire_catalog/import_goodyear_2022.py:184-202 | a specification is produced only with a rated load in (100, 100000), and carries the size, line and page it was given |
| GoodyearImport.NonSizeLineSkipped | gearrec/tire_catalog/import_goodyear_2022.py:69-76 | a line that starts with neither a digit nor a letter and a digit cannot start with a size, and is skipped |
| GoodyearImport.EmptyLineSkipped | gearrec/tire_catalog/import_goodyear_2022.py:64-66 | an empty line gives nothing |
| GoodyearImport.HeaderLineSkipped | gearrec/tire_catalog/import_goodyear_2022.py:69-76 | a header sentence gives nothing |
| GoodyearImport.LoadColumnsProperties | gearrec/tire_catalog/import_goodyear_2022.py:135-170 | the columns read are exactly the leading values consumed, each within its range; speed is read exactly when the first value is below 300, and the load is the next value exactly when it lies in (100, 100000) |
| GoodyearImport.FirstIn | gearrec/tire_catalog/import_goodyear_2022.py:173-178 | the first index in a window whose value lies in a range: found means in range with none before it, nothing means none in the window |
| GoodyearImport.ScanDimensionsFirst | gearrec/tire_catalog/import_goodyear_2022.py:173-178 | the outside diameter is the first value in (5, 60) after the load columns and the section width the first value in (2, 20) after it |
| GoodyearImport.NumericValuesMembers | gearrec/tire_catalog/import_goodyear_2022.py:122-126 | a value is collected exactly when some token parses to it |
| GoodyearImport.PartNumberCandidatesMembers | gearrec/tire_catalog/import_goodyear_2022.py:122-129 | a token is a part-number candidate exactly when it does not parse as a number and starts with five letters or digits |
| GoodyearImport.ColumnsExample | gearrec/tire_catalog/import_goodyear_2022.py:131-178 | a typical row's numbers give speed 160, load 1600, inflation 55, braking 2400, bottoming 3200, outside diameter 17.5 and width 15.5 |
| GoodyearImport.ParseApplicationLine | gearrec/tire_catalog/import_goodyear_2022.py:205-303 | the parser returns exactly the declarative reading of the application line |
| GoodyearImport.HasHeaderKeyword | gearrec/tire_catalog/import_goodyear_2022.py:221-224 | the keyword loop answers exactly whether the text holds one of the keywords |
| GoodyearImport.ReadApplicationTokens | gearrec/tire_catalog/import_goodyear_2022.py:227-303 | the token reader returns exactly the declarative row read from the tokens |
| GoodyearImport.AssembleRow | gearrec/tire_catalog/import_goodyear_2022.py:252-303 | the row assembly returns exactly the declarative row |
| GoodyearImport.FindSizes | gearrec/tire_catalog/import_goodyear_2022.py:232-240 | the loop collects exactly the upper-cased size tokens and their positions |
| GoodyearImport.SplitModel | gearrec/tire_catalog/import_goodyear_2022.py:253-268 | the manufacturer split returns exactly the declarative model name |
| GoodyearImport.FindManufacturer | gearrec/tire_catalog/import_goodyear_2022.py:264-268 | the loop returns exactly the first manufacturer the upper-cased model starts with |
| GoodyearImport.FirstManufacturer | gearrec/tire_catalog/import_goodyear_2022.py:264-268 | a reported manufacturer is in the list and prefixes the upper-cased model |
| GoodyearImport.ReadPlies | gearrec/tire_catalog/import_goodyear_2022.py:273-284 | the main and auxiliary ply ratings are the ply tokens right after the first and second sizes |
| GoodyearImport.CollectCodes | gearrec/tire_catalog/import_goodyear_2022.py:286-290 | the loop collects exactly the TT and TL codes in order |
| GoodyearImport.ContainsAnyMembers | gearrec/tire_catalog/import_goodyear_2022.py:221-224 | the header test holds exactly when the text contains one of the keywords |
| GoodyearImport.HeaderKeywordSkipped | gearrec/tire_catalog/import_goodyear_2022.py:220-225 | a line whose upper-cased text holds a header keyword gives nothing |
| GoodyearImport.NonHeaderLineReadsTokens | gearrec/tire_catalog/import_goodyear_2022.py:216-227 | a non-blank line without header keywords is read from its whitespace-separated tokens |
| GoodyearImport.FlaggedIndicesMembers | gearrec/tire_catalog/import_goodyear_2022.py:235-240 | the size positions are exactly the flagged positions, in increasing order |
| GoodyearImport.FlaggedUpperAt | gearrec/tire_catalog/import_goodyear_2022.py:235-240 | the sizes and their positions line up: each size is the upper-cased token at its position |
| GoodyearImport.ApplicationWithoutSize | gearrec/tire_catalog/import_goodyear_2022.py:242-243 | tokens holding no size give nothing |
| GoodyearImport.ApplicationSizeFirst | gearrec/tire_catalog/import_goodyear_2022.py:245-250 | a line whose first token is a size has no model and gives nothing |
| GoodyearImport.ApplicationMainTire | gearrec/tire_catalog/import_goodyear_2022.py:245-303 | with the first size at position f > 0, the main tire is that token upper-cased, the name is split from the tokens before it, the main ply is the token after it, and the page and line are recorded |
| GoodyearImport.ApplicationAuxTire | gearrec/tire_catalog/import_goodyear_2022.py:270-284 | the auxiliary tire is the second size token upper-cased, with the ply token after it |
| GoodyearImport.ApplicationSingleTire | gearrec/tire_catalog/import_goodyear_2022.py:270-284 | with only one size there is no auxiliary tire and no auxiliary ply |
| GoodyearImport.TubeCodesMembers | gearrec/tire_catalog/import_goodyear_2022.py:286-290 | every code is TT or TL, and every TT or TL token, in any case, contributes its upper-cased code |
| GoodyearImport.ApplicationCode | gearrec/tire_catalog/import_goodyear_2022.py:286-291 | a row has no code exactly when no token reads TT or TL |
| GoodyearImport.FirstManufacturerAt | gearrec/tire_catalog/import_goodyear_2022.py:264-268 | the manufacturer reported is the first in list order that prefixes the upper-cased model |
| GoodyearImport.FirstManufacturerNone | gearrec/tire_catalog/import_goodyear_2022.py:264-268 | no manufacturer is reported when none prefixes the upper-cased model |
| GoodyearImport.BeechShadowsBeechcraft | gearrec/tire_catalog/import_goodyear_2022.py:257-268 | a model starting with BEECHCRAFT is split at BEECH, leaving CRAFT in the model text |
| GoodyearImport.BeechcraftNeverReported | gearrec/tire_catalog/import_goodyear_2022.py:257-268 | BEECHCRAFT is never the manufacturer reported |
| GoodyearImport.NoteLineSkipped | gearrec/tire_catalog/import_goodyear_2022.py:220-225 | the chart's note line about TT and TL is skipped as a header |
| GoodyearImport.BeechcraftKingAirExample | gearrec/tire_catalog/import_goodyear_2022.py:257-268 | "BEECHCRAFT KING AIR" splits as manufacturer BEECH and model "CRAFT KING AIR" |
| Sorting.SortBy | gearrec/generator/candidates.py:122 | sorting is a permutation of its input of the same length |
| Sorting.SortBySorted | gearrec/generator/candidates.py:122 | the sorted list is ordered by the key |
| Sorting.SortByStable | gearrec/generator/candidates.py:122 | the sort is stable: elements with equal keys keep their relative order |
| Sorting.SortByMembers | gearrec/physics/tire_catalog.py:174-189 | the sorted list holds exactly the elements of the input |
| Sorting.SortedCut | gearrec/generator/candidates.py:128-134 | the first n of the sorted list are ordered, come from the input, and no element left out ranks before one kept; with n at least the length nothing is left out |
| Strings.Upper | gearrec/tire_catalog/import_goodyear_2022.py:78 | upper-casing keeps the length and maps each character on its own |
| Strings.UpperIdempotent | gearrec/tire_catalog/import_goodyear_2022.py:289-290 | upper-casing twice is upper-casing once |
| Strings.Strip | gearrec/tire_catalog/import_goodyear_2022.py:64 | the stripped text is a contiguous piece of the input that neither starts nor ends with whitespace, and everything cut off before and after it is whitespace |
| Strings.StripUnpadded | gearrec/tire_catalog/import_goodyear_2022.py:216 | stripping text without surrounding whitespace leaves it unchanged |
| Strings.WordLength | gearrec/tire_catalog/import_goodyear_2022.py:78-79 | the first word holds no whitespace and ends at whitespace or the end |
| Strings.Split | gearrec/tire_catalog/import_goodyear_2022.py:82 | splitting gives non-empty words without whitespace |
| Strings.SplitEmptyIffBlank | gearrec/tire_catalog/import_goodyear_2022.py:82 | a text splits into no words exactly when it is all whitespace |
| Strings.SplitKeepsContent | gearrec/tire_catalog/import_goodyear_2022.py:82 | the words written end to end are the text's non-whitespace characters in order, so every non-whitespace character lies in some word |
| Strings.Join | gearrec/tire_catalog/import_goodyear_2022.py:254 | joining nothing gives the empty text and joining one part gives that part |
| Strings.RemoveChar | gearrec/tire_catalog/import_goodyear_2022.py:47 | removing a character leaves none of it and never lengthens the text |
| Strings.RemoveCharAppend | gearrec/tire_catalog/import_goodyear_2022.py:47 | removing a character distributes over concatenation |

## Left out

- GoodyearPatterns.ParseNumber: `float()` is modelled on decimal notation only (an optional sign, digits and at most one point, with surrounding whitespace). Exponents, `inf`, `nan`, digit-group underscores and non-ASCII digits, which Python also accepts, read as nothing here.
- GoodyearPatterns.FloatOf: the same decimal subset of `float()`; the value is the exact real, not the nearest binary float.
- Strings.Upper: maps the ASCII letters only; Python's `str.upper` also maps other scripts and can lengthen a string (`ß` becomes `SS`).
- Strings.IsDigit, Strings.IsLetter: ASCII only. Python's `\d` and case-insensitive `[A-Z]` also match some non-ASCII characters, so a size written with such characters is not recognised here.
- TireMatcher.ChooseTiresForConcept: `choose_tires_for_concept` reads `recommended_tire_width_range_m` from the concept's tire suggestion (`tire_catalog/matcher.py:367`). `TireSuggestion` does not declare that field (`models/outputs.py:70-93`), so the code as written raises `AttributeError`. The model takes the width target as an optional parameter, which is the evident intent. The same parameter appears in TireMatcher.BuildMainRequest and TireMatcher.BuildNoseRequest.
- Units: pint's registry, quantities and base-unit conversion (`physics/units.py:8-36`) and the pint wrapping of the touchdown energy are left out. Values are plain reals in SI units, with the source's conversion constants.
- Transcendentals: the cube root in the fuselage-length estimate, the square roots of the energy and geometry formulas, and `atan2` in the rollover check are not computed. Each is a parameter pinned by the equation it satisfies; the rollover angle is free, and only the comparison with the minimum matters.
- Floating point: every float is an exact real, so rounding differences and the rounding in formatted output are not captured.
- Description strings: the f-string texts of check results, assumptions, warnings and explanation bullets are enumerated values carrying their numbers, not formatted text.
- Build-failure logging: the `print` in the generator's failure handler is left out. The failed concept is still dropped, as in the source.
- Pydantic validation: only the bounds that can fail on the generator's values are modelled, as explicit checks that return `ValidationError`; the validation machinery is not.
- PDF import and file output: `import_data_section`, `import_application_charts`, `run_import` and `main` of the importer read PDFs with pdfplumber and write JSON. They are I/O; only the line parsers they call are modelled.
- The JSON catalog loader, the HTTP API, the HTML page and the command-line interface are I/O plumbing and are not part of this model.
- The sweep engine, the CG-sensitivity analysis and their output types are referenced by the source but not defined in it, so they are not part of this model.
- `list.sort` is modelled as a stable insertion sort over a strict weak order. The model states Timsort's observable result (sorted, a permutation, stable), not its algorithm.
