# Energy analysis: a Dafny model of the validation and estimation core

The system lets a user describe a building design: the four facades
(width, height, window-to-wall ratio), the solar heat gain coefficient
(SHGC) of the glazing and an optional skylight. It then estimates how much
solar heat the design gains in one of four Indian cities and what cooling
that heat costs. The design can be compared across designs, or ranked across
cities.

This project models the part of the system that decides things:

- `heat_gain.dfy` models the estimator. It holds:
  - the per-city radiation and electricity tables;
  - the facade loop that sums `area * SHGC * G * 8` per facade;
  - the skylight term;
  - the conversion heat gain -> cooling load (÷ 3412) -> energy (÷ COP 4)
    -> cost (× tariff);
  - the two-decimal rounding of the returned record.

  `CalculateHeatGain` is an imperative method with the facade loop. It is
  proved equal to the closed-form `AnalysisFor`. Lemmas about that function
  give:
  - the closed form of the cost;
  - non-negativity;
  - monotonicity in the window-to-wall ratio and in the SHGC;
  - when the skylight is ignored;
  - a worked Delhi example.
- `design_validation.dfy` models the middleware that guards design creation
  and update. It is a pure function over a JSON request body. It is proved
  equal to "the first failing guard of a flat guard list", and it accepts
  exactly the bodies described by an independent validity predicate.
- `analysis_validation.dfy` models the three middlewares of the analysis
  routes:
  - the query-string checks;
  - the comma split of the id list, with its `Join`/`Split` round trips;
  - the in-place write of the split list back into the request (a `Request`
    class).
- `analysis_controller.dfy` models the three handlers:
  - analyse one design;
  - compare several designs;
  - rank the four cities for one design.

  The database is a sequence of records with unique ids. `findById` and
  `find({_id: {$in}})` are functions over it. Both first cast each id to
  an ObjectId as Mongoose does: 24 hexadecimal digits of either case name
  the id in lower case, and any other id raises a CastError. The per-city
  loop and the rank numbering are methods. `Array.prototype.sort` is
  modelled as a stable insertion sort. It is proved to give a sorted
  permutation in which lines of equal cost keep their loop order.
- `create_design_form.dfy` models the client-side form check `validate` of
  the design form. It is an imperative method that fills a map of error
  messages field by field. It is proved to record, for every field, exactly
  the message a per-field reference function `Expected` gives. It returns
  true exactly when no field has a problem.
- `common.dfy` holds the shared vocabulary:
  - `Option`, `Result`;
  - the four compass directions;
  - a four-direction record `Quad`;
  - the three ways a middleware can end.

Asynchronous database calls are modelled as synchronous lookups.
`decodeURIComponent` is a parameter `decode: string -> Option<string>`,
where `None` means it throws. The HTTP answer is a status with a payload
value.

## Model

| member | source | states |
|---|---|---|
| HeatGainCalculator.CityOf | backend/utils/heatGainCalculator.js:22-24 | a table lookup succeeds exactly for the four exact city names, and the city found carries that name |
| HeatGainCalculator.SolarRadiation | backend/utils/heatGainCalculator.js:2-7 | every facade figure lies between 150 and 400, and in every city it is below that city's roof figure |
| HeatGainCalculator.RoofRadiation | backend/utils/heatGainCalculator.js:2-7 | every roof figure lies between 300 and 450 |
| HeatGainCalculator.ElectricityRate | backend/utils/heatGainCalculator.js:9-14 | every tariff lies between 6.5 and 9.0 |
| HeatGainCalculator.TablesPositive | backend/utils/heatGainCalculator.js:2-14 | every radiation figure, roof figure and tariff in the tables is positive |
| HeatGainCalculator.Round2 | backend/utils/heatGainCalculator.js:53-56 | `toFixed(2)` yields a whole number of hundredths, at most half a hundredth from the value, with ties going away from zero (up for a non-negative value, down for a negative one); non-negative values stay non-negative |
| HeatGainCalculator.Round2Monotone | backend/utils/heatGainCalculator.js:53-56 | two-decimal rounding preserves order |
| HeatGainCalculator.PartialWallGainComplete | backend/utils/heatGainCalculator.js:26-35 | the running sum over the facades in loop order ends at the total facade gain |
| HeatGainCalculator.TotalHeatGain | backend/utils/heatGainCalculator.js:26-41 | the total is the facade gains summed in loop order plus the skylight term, and just the facade sum when there is no skylight |
| HeatGainCalculator.RawAnalysis | backend/utils/heatGainCalculator.js:43-50 | the load times 3412 is the total gain, the energy times the COP 4 is the load, and the cost is the energy at the city's tariff |
| HeatGainCalculator.AnalysisFor | backend/utils/heatGainCalculator.js:52-57 | each of the four returned figures is a whole number of hundredths within half a hundredth of its unrounded value |
| HeatGainCalculator.CalculateHeatGain | backend/utils/heatGainCalculator.js:21-58 | an unknown city throws "Invalid city provided for calculation."; a known city returns the rounded record of total gain, load, energy and cost from the closed-form analysis |
| HeatGainCalculator.CoolingCostClosedForm | backend/utils/heatGainCalculator.js:43-50 | load = gain / 3412, energy = gain / 13648, cost = gain × tariff / 13648 |
| HeatGainCalculator.SkylightIgnoredUnlessBothSides | backend/utils/heatGainCalculator.js:37-41 | unless both skylight sides are truthy, the total equals the facade gain and equals the total with no skylight at all |
| HeatGainCalculator.FacadeGainNonNegative | backend/utils/heatGainCalculator.js:29-34 | with non-negative inputs each facade's gain is non-negative |
| HeatGainCalculator.TotalHeatGainNonNegative | backend/utils/heatGainCalculator.js:26-41 | with non-negative inputs the total heat gain is non-negative |
| HeatGainCalculator.AnalysisNonNegative | backend/utils/heatGainCalculator.js:43-57 | with non-negative inputs all four figures are non-negative, before and after rounding |
| HeatGainCalculator.NegativeSkylightExample | backend/utils/heatGainCalculator.js:38-40 | a negative skylight side is truthy and drives the total gain and the cost below zero |
| HeatGainCalculator.GlazedAreaMonotoneInWwr | backend/utils/heatGainCalculator.js:31 | with non-negative facade sizes, a larger window-to-wall ratio never gives a smaller window area |
| HeatGainCalculator.FacadeGainMonotoneInWwr | backend/utils/heatGainCalculator.js:30-33 | with non-negative facade sizes and SHGC, raising one facade's ratio never lowers that facade's gain |
| HeatGainCalculator.FacadeGainOtherWwr | backend/utils/heatGainCalculator.js:29-34 | changing one facade's ratio leaves every other facade's gain unchanged |
| HeatGainCalculator.TotalMonotoneInWwr | backend/utils/heatGainCalculator.js:26-41 | with non-negative facade sizes and SHGC, raising one facade's ratio never lowers the total heat gain, whatever the skylight and the other ratios hold |
| HeatGainCalculator.FacadeGainMonotoneInShgc | backend/utils/heatGainCalculator.js:33 | a larger SHGC never lowers a facade's gain |
| HeatGainCalculator.SkylightGainMonotoneInShgc | backend/utils/heatGainCalculator.js:38-41 | a larger SHGC never lowers the skylight gain |
| HeatGainCalculator.TotalMonotoneInShgc | backend/utils/heatGainCalculator.js:26-41 | a larger SHGC never lowers the total heat gain |
| HeatGainCalculator.DelhiExample | backend/utils/heatGainCalculator.js:21-57 | four 2 × 1.5 facades, ratio 0.4, SHGC 0.5, Delhi: 4176 gain, 1.22 kWh load, 0.31 kWh energy, cost 2.60 (2.64 if the energy were rounded first) |
| DesignValidation.CheckSides | backend/middleware/validateInput.js:15-28 | the facade loop passes exactly when every facade it visits is an object with positive numeric width and height; otherwise it answers 400 with the object, numbers or positive message of an invalid facade |
| DesignValidation.CheckFractions | backend/middleware/validateInput.js:35-39 | the ratio loop passes exactly when every ratio it visits is a number in [0, 1]; otherwise it answers 400 with the message of a ratio that is not |
| DesignValidation.ValidateDesignInput | backend/middleware/validateInput.js:2-48 | the middleware either calls `next` or answers 400; it never throws |
| DesignValidation.FirstFailure | backend/middleware/validateInput.js:2-48 | the outcome is Next exactly when every guard passes; otherwise a 400 carrying the message of the first failing guard |
| DesignValidation.FirstFailureAppend | backend/middleware/validateInput.js:2-48 | the checks of a concatenated guard list run the first part and then the second |
| DesignValidation.FirstFailureCons | backend/middleware/validateInput.js:2-48 | a failing head guard answers at once; a passing one defers to the rest |
| DesignValidation.CheckSidesIsFirstFailure | backend/middleware/validateInput.js:16-28 | the facade loop (object, numbers, positive, per direction in order) is the first failure of its guard list |
| DesignValidation.CheckFractionsIsFirstFailure | backend/middleware/validateInput.js:35-39 | the ratio loop is the first failure of its guard list |
| DesignValidation.ValidateIsFirstFailure | backend/middleware/validateInput.js:2-48 | the whole middleware answers with the first failing guard in source order: name, dimensions, facades, ratios object, ratios, SHGC |
| DesignValidation.AllPassAppend | backend/middleware/validateInput.js:2-48 | a concatenated guard list passes exactly when both parts pass |
| DesignValidation.AllPassCons | backend/middleware/validateInput.js:2-48 | a guard list passes exactly when its head and its rest pass |
| DesignValidation.SideValidIff | backend/middleware/validateInput.js:17-27 | the three facade checks together hold exactly when the facade is an object with positive numeric width and height |
| DesignValidation.SideGuardsPass | backend/middleware/validateInput.js:16-28 | the facade guards for a list of directions all pass exactly when each of those facades is valid |
| DesignValidation.FractionGuardsPass | backend/middleware/validateInput.js:35-39 | the ratio guards all pass exactly when each ratio is a number in [0, 1] |
| DesignValidation.SidesOverDirections | backend/middleware/validateInput.js:15-28 | over the four directions, the facade guards pass exactly when all four facades are valid |
| DesignValidation.FractionsOverDirections | backend/middleware/validateInput.js:35-39 | over the four directions, the ratio guards pass exactly when all four ratios are in [0, 1] |
| DesignValidation.AllGuardsPass | backend/middleware/validateInput.js:2-47 | the guard list passes exactly when the body satisfies the independent validity predicate |
| DesignValidation.ValidatePassesIffValid | backend/middleware/validateInput.js:2-47 | the middleware calls `next` exactly for bodies with a non-empty string name, an object of four valid facades, an object of four ratios in [0, 1] and an SHGC in [0, 1] |
| DesignValidation.SkylightNeverInspected | backend/middleware/validateInput.js:3 | adding, changing or removing the skylight never changes the outcome |
| DesignValidation.NameCheckCases | backend/middleware/validateInput.js:6-8 | a missing, empty or non-string name is refused; a name of blanks is accepted |
| DesignValidation.BoundaryCases | backend/middleware/validateInput.js:25-36 | width 0 is refused; ratios 0 and 1 pass; 1.5 and the string "0.5" are refused |
| AnalysisValidation.ValidateAnalysisInput | backend/middleware/analysisValidation.js:4-18 | as written: a falsy id answers 400 "designId is required."; a falsy city answers 400 for the city; otherwise evaluating `validCities` throws; it never calls `next` |
| AnalysisValidation.ValidateAnalysisInputIntended | backend/middleware/analysisValidation.js:4-18 | with the city list in scope it never throws and calls `next` exactly when the id is truthy and the city is one of the four names |
| AnalysisValidation.ValidCitiesScopeCounterexample | backend/middleware/analysisValidation.js:11-15 | a well-formed id with city "Delhi" throws as written but passes the intended check |
| AnalysisValidation.IsObjectIdText | backend/middleware/analysisValidation.js:33 | the pattern `^[0-9a-fA-F]{24}$` holds exactly for 24 characters, each from the 22-character hexadecimal alphabet |
| AnalysisValidation.HexDigitIffInAlphabet | backend/middleware/analysisValidation.js:33 | the three ranges of the character class are exactly the 22 hexadecimal characters |
| AnalysisValidation.ValidateCityRankingsInput | backend/middleware/analysisValidation.js:24-38 | `next` exactly when the id's string form is 24 hexadecimal digits; a falsy id gets the "required" answer and nothing else does; every other refusal is "Invalid designId format." |
| AnalysisValidation.Split | backend/middleware/analysisValidation.js:51 | `split(',')` returns at least one piece, and no piece contains a comma |
| AnalysisValidation.SplitLength | backend/middleware/analysisValidation.js:51 | there is one more piece than there are commas |
| AnalysisValidation.SplitSingleIffNoComma | backend/middleware/analysisValidation.js:51-57 | fewer than two pieces exactly when the string has no comma |
| AnalysisValidation.Join | backend/middleware/analysisValidation.js:51 | joining with commas, the inverse of the split, starts with the first piece and puts a comma right after it when more pieces follow |
| AnalysisValidation.JoinSplit | backend/middleware/analysisValidation.js:51 | joining the pieces with commas gives back the string |
| AnalysisValidation.SplitPrefix | backend/middleware/analysisValidation.js:51 | a comma-free prefix joins the first piece and leaves the others alone |
| AnalysisValidation.SplitJoin | backend/middleware/analysisValidation.js:51 | splitting comma-joined comma-free pieces gives back the pieces |
| AnalysisValidation.SplitExamples | backend/middleware/analysisValidation.js:51-53 | "a," splits into "a" and an empty piece, so it passes the two-id check; "a" gives one piece |
| AnalysisValidation.Request.constructor | backend/middleware/analysisValidation.js:44 | a request starts with the query it was given |
| AnalysisValidation.ValidateCompareInput | backend/middleware/analysisValidation.js:43-71 | both fields are required (400); an array of ids throws; no comma answers 400 for two ids before the city is checked; a bad city answers 400; on `next` the query's ids become the split list and nothing else changes; every refusal leaves the query as it was |
| AnalysisController.StoreIdsAt | backend/controller/analysisController.js:13 | an id is among the stored ids exactly when some record carries it |
| AnalysisController.Fetch | backend/controller/analysisController.js:13 | the lookup of a cast id finds a design exactly when that id is stored, and what it finds is stored under that id |
| AnalysisController.FetchAt | backend/controller/analysisController.js:13 | with unique ids, looking up a record's id finds that record's design |
| AnalysisController.CastId | backend/controller/analysisController.js:13 | the ObjectId cast succeeds exactly for 24 hexadecimal digits, the text the rankings guard accepts; it yields 24 lower-case digits, the id's own digits with `A`-`F` lowered position by position, so a lower-case id is left as it is |
| AnalysisController.FindById | backend/controller/analysisController.js:13 | an id that cannot be cast fails with its CastError message; otherwise a design is found exactly when the cast id is stored, and it is the design stored under that id |
| AnalysisController.FoundUnderAnySpelling | backend/controller/analysisController.js:13 | every spelling that casts to a stored id finds that record's design |
| AnalysisController.UpperCaseIdFound | backend/controller/analysisController.js:68 | a stored id written with upper-case hexadecimal letters still finds its design |
| AnalysisController.FirstUncastable | backend/controller/analysisController.js:43 | the ids before the returned position can all be cast, and the id at it, if any, cannot |
| AnalysisController.CastAll | backend/controller/analysisController.js:43 | casting a `$in` list succeeds exactly when every id casts, giving each id's cast in order; otherwise it fails with the CastError of the first id that does not cast |
| AnalysisController.FetchIn | backend/controller/analysisController.js:43 | the `$in` query returns at most one design per stored record |
| AnalysisController.FindIn | backend/controller/analysisController.js:43 | the query fails exactly when some id is not 24 hexadecimal digits; otherwise it returns at most as many designs as are stored |
| AnalysisController.FetchInAppend | backend/controller/analysisController.js:43 | the `$in` query answers in store order: a store split in two gives the first part's designs, then the second's |
| AnalysisController.FetchInSingle | backend/controller/analysisController.js:43 | a single record contributes its design exactly when its id was requested |
| AnalysisController.FetchInMembers | backend/controller/analysisController.js:43 | a design is returned exactly when some record carrying it has a requested id |
| AnalysisController.FindInMembers | backend/controller/analysisController.js:43 | once every id casts, `find` returns exactly the designs stored under an ObjectId that some requested id casts to |
| AnalysisController.FindInOrder | backend/controller/analysisController.js:43 | `find` answers in store order: a store split in two gives the first part's designs, then the second's |
| AnalysisController.FetchInCount | backend/controller/analysisController.js:43 | the `$in` query returns one design per distinct requested key that is stored |
| AnalysisController.IntersectionSplit | backend/controller/analysisController.js:43 | the count of requested ids that are stored grows by one per stored record whose id was requested |
| AnalysisController.ElementsCount | backend/controller/analysisController.js:43-45 | a list has at most as many distinct ids as entries, and exactly as many when it has no repeats |
| AnalysisController.IntersectionCount | backend/controller/analysisController.js:43-45 | the requested ids that are stored number at most the requested ids, and exactly that many when all are stored |
| AnalysisController.FetchAllOrNothing | backend/controller/analysisController.js:43-47 | over cast keys, the count check passes exactly when the keys are distinct and every one is stored |
| AnalysisController.AllOrNothing | backend/controller/analysisController.js:43-47 | once every id casts, the count check passes exactly when no two ids cast to the same ObjectId and every id finds a design |
| AnalysisController.RepeatedIdNotFound | backend/controller/analysisController.js:43-47 | a list that names one design twice, in any two spellings, never passes the count check, so it gets 404 "One or more designs not found." |
| AnalysisController.MissingIdNotFound | backend/controller/analysisController.js:43-47 | one well-formed id that is not stored makes the whole comparison 404 |
| AnalysisController.AnalyzeDesign | backend/controller/analysisController.js:7-21 | a missing id or city answers 400; an id that cannot be cast answers 500 "Error analyzing design" with the CastError message; a well-formed unknown id answers 404; an unknown city answers 500 with the estimator's message; otherwise 200 with the design and its analysis |
| AnalysisController.CalculateRoute | backend/routes/analysisRoutes.js:8 | with the guard as intended: its refusals are answered as the guard gives them; once it passes, every one of the handler's answers (400, cast 500, 404, city 500, 200) follows as for `AnalyzeDesign` |
| AnalysisController.CalculateRouteAsWritten | backend/routes/analysisRoutes.js:8 | with the guard as written: its 400 refusals are forwarded and its throw becomes a 500 carrying the error, so every request ends in 400 or 500 and none reaches the handler |
| AnalysisController.RawIds | backend/controller/analysisController.js:35 | an array of ids is taken as it is; a string is split into comma-free pieces that join back to the string |
| AnalysisController.DecodeAll | backend/controller/analysisController.js:37 | decoding fails exactly when some id fails to decode; otherwise each id is decoded in place |
| AnalysisController.DecodeIds | backend/controller/analysisController.js:37 | the decoding loop computes the decoded list, or fails on the first id that does not decode |
| AnalysisController.Comparisons | backend/controller/analysisController.js:49-52 | one comparison per design, in order, pairing the design with its analysis |
| AnalysisController.AnalyzeAll | backend/controller/analysisController.js:49-52 | a known city gives every design's analysis in order; an unknown city throws at the first design (no design, no throw) |
| AnalysisController.CompareDesigns | backend/controller/analysisController.js:24-60 | no city answers 400; no ids throws (500); an id that does not decode answers 500; fewer than two ids answers 400; an id that cannot be cast answers 500 with its CastError; a count mismatch answers 404; an unknown city answers 500; otherwise 200 with the comparisons of the designs found |
| AnalysisController.ComparedDesignsRequested | backend/controller/analysisController.js:43-54 | each line of the 200 comparison pairs the design `find` returned at that position, which is stored under one of the requested ids |
| AnalysisController.EntryFor | backend/controller/analysisController.js:76-87 | a city's line carries the city's name and no rank; it has a cost exactly when the city is a key of the tables, and otherwise the error "Error calculating data" |
| AnalysisController.BuildEntries | backend/controller/analysisController.js:73-88 | the loop pushes one line per city name, in order: the rounded cost, or an error marker when the estimator throws |
| AnalysisController.Insert | backend/controller/analysisController.js:90 | inserting adds exactly the one entry to the list's contents |
| AnalysisController.SortByCost | backend/controller/analysisController.js:90 | sorting keeps the entries as a permutation |
| AnalysisController.WithCost | backend/controller/analysisController.js:90 | the lines of one cost, in their order: never more lines than the input, each priced at that cost |
| AnalysisController.WithCostCons | backend/controller/analysisController.js:90 | the lines of one cost of a list are those of its head followed by those of its tail |
| AnalysisController.InsertSameCost | backend/controller/analysisController.js:90 | an inserted line lands in front of the lines of its own cost |
| AnalysisController.InsertOtherCost | backend/controller/analysisController.js:90 | inserting a line leaves the lines of every other cost in their order |
| AnalysisController.SortByCostStable | backend/controller/analysisController.js:90 | the sort is stable: the lines of each cost come out in their input order |
| AnalysisController.WithCostAll | backend/controller/analysisController.js:90 | when every line has one cost, filtering by that cost keeps the whole list |
| AnalysisController.WithCostFull | backend/controller/analysisController.js:90 | filtering by a cost keeps the whole list only when every line has that cost |
| AnalysisController.EqualCostsKeepOrder | backend/controller/analysisController.js:90-94 | when all lines cost the same, a result that keeps each cost's lines in order is the loop's list itself |
| AnalysisController.SortedCons | backend/controller/analysisController.js:90 | an entry no dearer than every entry of a sorted list can head it |
| AnalysisController.InsertLowerBound | backend/controller/analysisController.js:90 | insertion keeps a lower bound on the costs |
| AnalysisController.InsertSorted | backend/controller/analysisController.js:90 | inserting into a cost-sorted list keeps it sorted |
| AnalysisController.SortByCostSorted | backend/controller/analysisController.js:90 | the sort orders priced entries by ascending cooling cost |
| AnalysisController.WithRank | backend/controller/analysisController.js:93 | attaching a rank sets it and changes nothing else |
| AnalysisController.AssignRanks | backend/controller/analysisController.js:92-94 | in place, the entry at position i gets rank i + 1 and is otherwise unchanged |
| AnalysisController.ExpectedEntries | backend/controller/analysisController.js:73-88 | there is one line for each of the four cities |
| AnalysisController.Unrank | backend/controller/analysisController.js:93 | dropping the rank leaves an unranked entry, and an unranked entry is left as it was |
| AnalysisController.Unranked | backend/controller/analysisController.js:92-94 | dropping the ranks keeps the length |
| AnalysisController.ExpectedEntriesPriced | backend/controller/analysisController.js:76-83 | for the four known cities the estimator never throws, so every line has a cost |
| AnalysisController.RanksStayNone | backend/controller/analysisController.js:90 | a permutation of unranked entries is unranked |
| AnalysisController.NumberingKeepsOrder | backend/controller/analysisController.js:92-94 | numbering a sorted list keeps it sorted, and removing the numbers gives the list back |
| AnalysisController.BuiltIsExpected | backend/controller/analysisController.js:73-88 | the loop's lines over the four cities are the expected four lines |
| AnalysisController.RankEntries | backend/controller/analysisController.js:90-94 | sort then number: ranks 1..n by position, ascending cost, the same entries apart from the ranks, and lines of equal cost in their input order |
| AnalysisController.GetCityRankings | backend/controller/analysisController.js:64-101 | an id that cannot be cast answers 500 "Error fetching city rankings" with the CastError message; a well-formed unknown id answers 404; otherwise 200 with the design and four lines, ranked 1-4 by position, in ascending cost, a permutation of the four cities' rounded costs with equal costs in loop order |
| CreateDesignForm.Trim | frontend/energy-analysis/src/pages/CreateDesign.jsx:65 | the trimmed name is no longer than the name and neither starts nor ends with whitespace |
| CreateDesignForm.TrimStart | frontend/energy-analysis/src/pages/CreateDesign.jsx:65 | the result is a suffix; everything dropped is whitespace; the result does not start with whitespace |
| CreateDesignForm.TrimEnd | frontend/energy-analysis/src/pages/CreateDesign.jsx:65 | the result is a prefix; everything dropped is whitespace; the result does not end with whitespace |
| CreateDesignForm.TrimStartEmpty | frontend/energy-analysis/src/pages/CreateDesign.jsx:65 | trimming the start leaves nothing exactly when the text is all whitespace |
| CreateDesignForm.TrimEndEmpty | frontend/energy-analysis/src/pages/CreateDesign.jsx:65 | trimming the end leaves nothing exactly when the text is all whitespace |
| CreateDesignForm.BlankIffAllWhitespace | frontend/energy-analysis/src/pages/CreateDesign.jsx:65 | the name is refused as blank exactly when it is all whitespace |
| CreateDesignForm.Expected | frontend/energy-analysis/src/pages/CreateDesign.jsx:62-99 | each field's possible problem: only the ratios and the SHGC can be out of range; only widths, heights and skylight sides can be "not positive"; a skylight side is never left with "required" |
| CreateDesignForm.Recorded | frontend/energy-analysis/src/pages/CreateDesign.jsx:62-99 | after the checks for a set of fields, exactly those fields with a problem hold a message |
| CreateDesignForm.RecordStep | frontend/energy-analysis/src/pages/CreateDesign.jsx:62-99 | checking one more field adds or overwrites that field's entry and nothing else |
| CreateDesignForm.CheckedByHolds | frontend/energy-analysis/src/pages/CreateDesign.jsx:67-85 | after i directions, the width, height and ratio of each earlier direction have been checked |
| CreateDesignForm.EveryKeyChecked | frontend/energy-analysis/src/pages/CreateDesign.jsx:62-99 | the name, the loop, the SHGC and the skylight checks between them cover every field |
| CreateDesignForm.CheckedByHolds0 | frontend/energy-analysis/src/pages/CreateDesign.jsx:65-67 | the name is checked before the loop starts |
| CreateDesignForm.NameStep | frontend/energy-analysis/src/pages/CreateDesign.jsx:65 | the name check alone records the name's problem on an empty map |
| CreateDesignForm.DirectionStep | frontend/energy-analysis/src/pages/CreateDesign.jsx:67-85 | one loop turn records width, height and ratio for its direction |
| CreateDesignForm.CheckName | frontend/energy-analysis/src/pages/CreateDesign.jsx:65 | a blank name records "Design name is required."; otherwise nothing changes |
| CreateDesignForm.CheckPositive | frontend/energy-analysis/src/pages/CreateDesign.jsx:68-78 | an empty side records "… is required."; a side at most 0 records "… must be a positive number."; else nothing |
| CreateDesignForm.CheckRatio | frontend/energy-analysis/src/pages/CreateDesign.jsx:80-84 | an empty ratio records "… WWR is required."; one outside [0, 1] records "… must be between 0 and 1."; else nothing |
| CreateDesignForm.CheckDirection | frontend/energy-analysis/src/pages/CreateDesign.jsx:67-85 | one direction records its width, height and ratio problems |
| CreateDesignForm.CheckShgc | frontend/energy-analysis/src/pages/CreateDesign.jsx:88-89 | an empty field records "SHGC is required."; a value outside [0, 1] records "SHGC must be between 0 and 1."; else nothing |
| CreateDesignForm.CheckSkylight | frontend/energy-analysis/src/pages/CreateDesign.jsx:91-94 | the required messages are written first and then overwritten by "must be positive" for a side at most 0 (an empty side reads as 0) |
| CreateDesignForm.RecordedEverything | frontend/energy-analysis/src/pages/CreateDesign.jsx:96-98 | once every field is checked, the map holds exactly the problem fields with their messages, and it is empty exactly when no field has a problem |
| CreateDesignForm.FinalStep | frontend/energy-analysis/src/pages/CreateDesign.jsx:88-98 | after the SHGC and skylight checks the map is complete |
| CreateDesignForm.Validate | frontend/energy-analysis/src/pages/CreateDesign.jsx:62-99 | the error map holds a field exactly when that field has a problem, with the message for that problem, and the result is true exactly when no field has one |
| CreateDesignForm.AcceptedNameNotBlank | frontend/energy-analysis/src/pages/CreateDesign.jsx:65 | an accepted form has a name with a non-whitespace character |
| CreateDesignForm.AcceptedFieldsInRange | frontend/energy-analysis/src/pages/CreateDesign.jsx:67-94 | an accepted form has positive widths and heights, ratios and SHGC in [0, 1], and a skylight with positive sides |
| CreateDesignForm.SkylightEffectivelyMandatory | frontend/energy-analysis/src/pages/CreateDesign.jsx:91-94 | an empty skylight side is reported as "must be positive", so the "required" messages never survive |
| CreateDesignForm.BlankFormReportsEveryField | frontend/energy-analysis/src/pages/CreateDesign.jsx:62-99 | an untouched form reports a problem for every field |
| CreateDesignForm.NameStricterThanServer | frontend/energy-analysis/src/pages/CreateDesign.jsx:65 | every name the form accepts passes the server's name check, but a name of blanks passes the server and not the form |
| CreateDesignForm.BoundaryFields | frontend/energy-analysis/src/pages/CreateDesign.jsx:80-89 | ratio or SHGC of exactly 0 or 1 is accepted; a width of 0 is "must be a positive number" |

## Left out

- HTTP, Express routing, JSON serialisation, React state and rendering, and
  the MongoDB connection are not modelled. The store is a sequence of
  records with unique ids, and lookups are synchronous.
- AnalysisController.CastId: only 24-digit hexadecimal text is cast. Mongoose
  also casts a 12-character string as raw bytes; that case is not modelled
  and such an id fails the cast here. The CastError message is Mongoose's
  wording for a string value, and its `reason` and `kind` fields are left
  out. The store keeps ids in the cast, lower-case form.
- AnalysisController.AnalyzeDesign: `designId` and `city` are modelled as
  strings. A JSON body can hold any value there. An array such as
  `["Delhi"]` is truthy, and reading it as a table key turns it into "Delhi",
  so it answers 200. Such non-string fields are not modelled.
- The estimator's tables are JavaScript objects. A city name such as
  "toString" would find an inherited property and not throw. The model
  accepts only the four city names.
- Numbers are exact reals. NaN, infinities and floating-point error are not
  modelled. `toFixed(2)` is rounding half away from zero on the exact value,
  and the response carries it as a number, not a string.
- The worked Delhi example gives a cost of 2.60, because the code rounds only
  the final figures. Rounding the energy first would give 2.64. The model
  follows the code.
- AnalysisController.GetCityRankings: the `energyEfficiency` field is always
  `undefined` in the source and is not carried. The comparator reads an error
  line's cost as `undefined`, so the comparison returns NaN. The order of
  such lines is not modelled. With the four fixed cities no such line arises
  (`ExpectedEntriesPriced`).
- AnalysisController.CalculateRoute: the route `POST /calculate` is stated
  with the intended guard. `CalculateRouteAsWritten` states the route with
  the guard as written, which throws on every request that gets past its
  first two checks (see Findings). The guard reads the query string and the
  handler reads the body, so they are separate parameters.
- Query-string values are strings or arrays of strings. Nested objects from
  extended query parsing are not modelled.
- The design form's number fields are optional reals. An empty field is
  `None`, which compares as 0 and is falsy. A filled field keeps its text, so
  "0" is truthy and still compares as 0. Non-numeric text and the typing
  handlers (`handleChange`, `handleSubmit`) are not modelled.
- The server never validates the skylight. `SkylightNeverInspected` states
  that rather than modelling a check.
- The design-form field names (`northWidth`, …) are modelled by `KeyName`.
  That they are all distinct is not proved.
- The design CRUD controller (`designController.js`), the other pages and
  the Mongoose schema are not part of this model. Of the route files, only
  the `POST /calculate` composition above is modelled.

## Findings

| source | as written | input that shows it | evidently intended | confidence | as-written member | corrected member |
|---|---|---|---|---|---|---|
| backend/middleware/analysisValidation.js:11-15 | the city test reads `validCities`, which is declared only inside `validateCompareInput`; once the id and the city are both truthy, the name lookup throws a ReferenceError and the request ends in a 500 | query `designId=64b7f0c2a1d3e4f5a6b7c8d9&city=Delhi` | refuse a city that is not one of the four names with 400, and otherwise call `next` | high, not executed | AnalysisValidation.ValidateAnalysisInput, AnalysisValidation.ValidCitiesScopeCounterexample | AnalysisValidation.ValidateAnalysisInputIntended |
