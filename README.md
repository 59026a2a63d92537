# Model_Pricer slicing and pricing core, in Dafny

This project models the part of Model_Pricer that turns an uploaded 3D model into print statistics and a price, and proves properties about it. The model covers:

- **Pricing** (`pricing.dfy`): the order price from material weight, print time, quantity, post-processing options and express delivery. It also covers the price and time formatting the upload page shows.
- **Backend slicers**:
  - the PrusaSlicer command-line wrapper (`prusa_slicer.dfy`): the command it builds, the G-code metadata it parses, and the temporary files it removes on every path;
  - the KiriMoto command-line wrapper (`kiri_wrapper.dfy`);
  - the `/api/slice` endpoint that drives PrusaSlicer (`slice_api.dfy`).
- **Browser slicers**:
  - the slicing service that drives the KiriMoto engine object (`slicing_service.dfy`);
  - the two iframe bridges to KiriMoto (`kiri_frame.dfy`, `kiri_frame_wrapper.dfy`);
  - the pure parts of the `useKiriFrame` hook (`use_kiri_frame.dfy`): the G-code statistics regexes, the footer macros and the `processModel` settings.
- **Admin pages**: the material price list (`admin_pricing.dfy`) and the fee list (`admin_fees.dfy`). The model covers loading, editing and saving.

Supporting modules:

- `common.dfy`: optional values, results, JavaScript numbers with NaN, and `Math.floor` / `Math.round` / `%`.
- `text.dfy`: `split('\n')`, `includes`, digit runs, `parseFloat`, `Number`, and ASCII case mapping.
- `lists.dfy`: index-based `map` and `filter`.
- `filament.dfy`: grams of 1.75 mm filament.
- `quality.dfy`: the quality tables shared by the KiriMoto code.
- `workspace.dfy`: the file system the backend wrappers touch.

How the source's forms are modelled:

- **Mutable objects are classes.** The iframe bridges and the file system are classes whose methods say exactly what they change. Window events, timers, file-reader callbacks and promise settlement are explicit method calls; a promise that settles at most once is tracked by a `done` set.
- **Loops are methods.** The source's loops (G-code parsing, override building, cleanup, saving prices) are methods with loop invariants, each proved equal to a recursive specification function. The properties are then proved about that function.
- **Pure computations are functions.** Regular expressions become leftmost-match scanners over positions, which follow JavaScript's greedy and lazy backtracking, multi-line `^`, and the `i` flag without `u`.
- **Outside inputs are parameters.** Process execution, file I/O failure, `Date.now()` and network responses are parameters.

## Model

| member | source | states |
|---|---|---|
| Pricing.OptionsSum | src/lib/kiri/pricingService.ts:61-63 | the selected post-processing options cost between 0 and 200 each; an unknown option costs 0 |
| Pricing.OptionsSumAppend | src/lib/kiri/pricingService.ts:61-62 | the option sum of two selections together is the sum of their option sums |
| Pricing.CalculatePrice | src/lib/kiri/pricingService.ts:50-93 | the subtotal is the sum of the material, time and post-processing costs; express delivery adds half the subtotal and nothing otherwise; the total is the subtotal plus that surcharge |
| Pricing.PieceCosts | src/lib/kiri/pricingService.ts:50-63 | one piece's post-processing costs between 0 and 200 per selected option |
| Pricing.OrderPrice | src/lib/kiri/pricingService.ts:54-72 | the subtotal adds the three cost components; the total is one and a half times the subtotal with express delivery, the subtotal itself without |
| Pricing.UnknownMaterialPricedAsPla | src/lib/kiri/pricingService.ts:51-54 | a material missing from the table is charged PLA's 0.5 per gram |
| Pricing.ExpressSurcharge | src/lib/kiri/pricingService.ts:66-72 | express delivery makes the total exactly 1.5 times the non-express total, the surcharge being half the subtotal |
| Pricing.NonNegativeCosts | src/lib/kiri/pricingService.ts:54-72 | for non-negative weight, time and quantity every cost is non-negative and the total is at least the subtotal |
| Pricing.PieceCostsIgnoreOrderTerms | src/lib/kiri/pricingService.ts:54-63 | the per-piece material, time and post-processing costs depend on neither quantity nor express delivery |
| Pricing.BreakdownOrder | src/lib/kiri/pricingService.ts:75-86 | the breakdown lists material and time first, then post-processing and express each only when positive, with their amounts |
| Pricing.OrderLabels | src/lib/kiri/pricingService.ts:75-86 | the same breakdown order and amounts, for any per-piece costs and quantity |
| Pricing.BreakdownAddsUpToTotal | src/lib/kiri/pricingService.ts:66-86 | for non-negative inputs the breakdown amounts add up to the total |
| Pricing.AssembledBreakdownSum | src/lib/kiri/pricingService.ts:66-86 | the same, for any costs whose post-processing part and subtotal are non-negative |
| Pricing.QuantityLinear | src/lib/kiri/pricingService.ts:54-72 | the total of an order is its quantity times the total of one piece, with or without express delivery |
| Pricing.QuantityMonotone | src/lib/kiri/pricingService.ts:54-72 | for non-negative weight and time, more pieces never cost less |
| Pricing.OrderPriceScales | src/lib/kiri/pricingService.ts:54-72 | for any per-piece costs, the total for a quantity is that quantity times the total for one piece |
| Pricing.OrderPriceMonotone | src/lib/kiri/pricingService.ts:54-72 | with no negative per-piece cost, a larger quantity never has a smaller total |
| Pricing.FormatPrice | src/lib/kiri/pricingService.ts:99-101 | the text is a whole number within half a crown of the amount, followed by " Kč" |
| Pricing.FormatPriceRounds | src/lib/kiri/pricingService.ts:99-101 | any whole number within half a crown of the amount, halves going up, is the one displayed |
| Pricing.FormatWholePrice | src/lib/kiri/pricingService.ts:99-101 | a whole amount is printed as its digits followed by " Kč" |
| Pricing.ClockParts | src/lib/kiri/pricingService.ts:104-105 | for a non-negative duration, the hours and the minutes below 60 bracket it to within one minute |
| Pricing.FormatTime | src/lib/kiri/pricingService.ts:103-112 | the text contains an `h` exactly when the duration has whole hours |
| Pricing.FormatShortTime | src/lib/kiri/pricingService.ts:107-109 | below one hour only "<minutes> min" is shown |
| AdminFees.NormalizeFee | src/pages/admin/AdminFees.jsx:26-33 | a stored row keeps its id, gets the fixed / per_model / 0 / empty-name defaults for falsy columns, and is enabled only for 1 or true |
| AdminFees.LoadFeesShape | src/pages/admin/AdminFees.jsx:26-35 | loading keeps the number, order and ids of the rows |
| AdminFees.SaveFees | backend-express/db/database.js:120-149 | saving replaces the rows by one row per fee, in list order, each with the id the database assigns |
| AdminFees.ReloadIsStable | src/pages/admin/AdminFees.jsx:65-76 | saving the loaded fees and loading them again gives the same fees in the same order, each with its new id |
| AdminFees.NormalizeStored | src/pages/admin/AdminFees.jsx:26-33 | a normalised fee comes back from the database unchanged but for its id |
| AdminFees.AddFee | src/pages/admin/AdminFees.jsx:43-52 | the list grows by one enabled, zero-amount, fixed, per-model fee at the end and keeps the rest |
| AdminFees.ApplyFeeEdit | src/pages/admin/AdminFees.jsx:56 | exactly the edited field takes the new value |
| AdminFees.UpdateFeeOnlyTouchesIndex | src/pages/admin/AdminFees.jsx:54-58 | only fee `index` changes; an index outside the list changes nothing |
| AdminFees.DeleteFeeRemovesIndex | src/pages/admin/AdminFees.jsx:60-63 | exactly fee `index` is removed and the others keep their order; an index outside the list changes nothing |
| AdminFees.CalculationTypeLabel | src/pages/admin/AdminFees.jsx:88-97 | a known type shows its label, any other type shows itself |
| AdminFees.CalculationTypeUnit | src/pages/admin/AdminFees.jsx:99-108 | a known type shows its unit, any other type shows Kč; every unit starts with Kč |
| AdminPricing.TimeRateOr150 | src/pages/admin/AdminPricing.jsx:36 | the time rate is never 0: a truthy rate is kept, otherwise it is 150 |
| AdminPricing.LoadConfig | src/pages/admin/AdminPricing.jsx:20-43 | a null response leaves the page unchanged; otherwise the list is the loaded price entries, empty when the prices are missing, and the time rate is the response's when truthy, else 150 |
| AdminPricing.LoadMaterialsShape | src/pages/admin/AdminPricing.jsx:28-33 | every price entry becomes, in order, an enabled material with its key as id, the upper-cased key as name, and its price |
| AdminPricing.SaveKey | src/pages/admin/AdminPricing.jsx:73 | a saved key has no white space, is non-empty for a non-empty name, and is the lower-cased name when the name has no white space |
| AdminPricing.SaveKeyIgnoresCase | src/pages/admin/AdminPricing.jsx:73 | names differing only in letter case share a key |
| AdminPricing.SaveKeySplit | src/pages/admin/AdminPricing.jsx:73 | each maximal white-space run of a name becomes one `_` between the keys of the words around it |
| AdminPricing.SaveMaterialPrices | src/pages/admin/AdminPricing.jsx:69-76 | the save loop builds exactly the price map of the material list |
| AdminPricing.SavedKeys | src/pages/admin/AdminPricing.jsx:71-75 | a key is saved exactly when some named, enabled material produces it |
| AdminPricing.LastMaterialWins | src/pages/admin/AdminPricing.jsx:74 | the saved price of a key is that of the last named, enabled material producing it |
| AdminPricing.CanonicalKeyIsFixed | src/pages/admin/AdminPricing.jsx:30 | a lower-case key without white space, upper-cased for display, saves under itself |
| AdminPricing.LoadThenSave | src/pages/admin/AdminPricing.jsx:28-76 | loading a price map with canonical keys and saving it unchanged gives the same map |
| AdminPricing.AddMaterial | src/pages/admin/AdminPricing.jsx:45-52 | one unnamed, zero-priced, enabled material is appended and the rest kept |
| AdminPricing.AddedMaterialNotSaved | src/pages/admin/AdminPricing.jsx:45-52 | a freshly added material does not change the saved prices |
| AdminPricing.ApplyMaterialEdit | src/pages/admin/AdminPricing.jsx:56 | exactly the edited field takes the new value |
| AdminPricing.UpdateMaterialOnlyTouchesIndex | src/pages/admin/AdminPricing.jsx:54-58 | only material `index` changes; an index outside the list changes nothing |
| AdminPricing.DeleteMaterialRemovesIndex | src/pages/admin/AdminPricing.jsx:60-63 | exactly material `index` is removed and the others keep their order |
| Lists.UpdateAtSplit | src/pages/admin/AdminFees.jsx:55-57 | the indexed `map` replaces exactly entry `index` |
| Lists.WithoutIndexSplit | src/pages/admin/AdminFees.jsx:62 | the indexed `filter` drops exactly entry `index` |
| PrusaSlicer.SettingsByField | backend-express/prusaSlicerWrapper.js:108-147 | each key's override follows its own field: given values, `%` for infill, 1/0 for supports, twice the speed for travel, 5 and 3 for a truthy brim and raft |
| PrusaSlicer.BuildParameterOverrides | backend-express/prusaSlicerWrapper.js:105-152 | the loop of pushes yields exactly the overrides of the configuration |
| PrusaSlicer.EmitLookup | backend-express/prusaSlicerWrapper.js:105-152 | every key in the list gets exactly its field's override and no other key gets one |
| PrusaSlicer.OverrideValues | backend-express/prusaSlicerWrapper.js:108-147 | each key's first override in the command carries the value its field dictates, and an undefined field gives none |
| PrusaSlicer.OverridesFixedOrder | backend-express/prusaSlicerWrapper.js:108-147 | the overrides come in the fixed key order, so no key appears twice |
| PrusaSlicer.SpeedOverrides | backend-express/prusaSlicerWrapper.js:129-132 | a defined speed gives the print speed and twice it as travel speed; none gives neither |
| PrusaSlicer.BuildSlicingCommand | backend-express/prusaSlicerWrapper.js:79-100 | slicer, export flag and profile, then scale only when truthy, then the overrides, then input and `-o` output |
| PrusaSlicer.ParseGCode | backend-express/prusaSlicerWrapper.js:173-244 | the line loop computes exactly the metadata function of the G-code |
| PrusaSlicer.TimeOfLine | backend-express/prusaSlicerWrapper.js:182-198 | only a line containing `; estimated printing time` gives a print time |
| PrusaSlicer.Scan | backend-express/prusaSlicerWrapper.js:180-221 | the layer count never exceeds the number of lines read |
| PrusaSlicer.MetadataOf | backend-express/prusaSlicerWrapper.js:173-244 | time and layer count are those the line loop ends with, and the layer count is at most the number of lines |
| PrusaSlicer.ScanValues | backend-express/prusaSlicerWrapper.js:180-221 | time, grams and length are those of the last line giving each, 0 without one; layers are the count of layer lines |
| PrusaSlicer.LastOfIsLast | backend-express/prusaSlicerWrapper.js:180-215 | a value is reported exactly when some line gives one, and then it is the last such line's |
| PrusaSlicer.LayerCountBounded | backend-express/prusaSlicerWrapper.js:217-220 | the layer count is at most the line count, 0 exactly without layer lines |
| PrusaSlicer.HmsLineTime | backend-express/prusaSlicerWrapper.js:183-189 | a time line reading `H h M m S s` gives H·3600 + M·60 + S seconds |
| PrusaSlicer.MsLineTime | backend-express/prusaSlicerWrapper.js:190-198 | a time line without `h` reading `M m S s` gives M·60 + S seconds |
| PrusaSlicer.FirstHmsNeedsH | backend-express/prusaSlicerWrapper.js:184 | the hours pattern never matches a line without `h` |
| PrusaSlicer.AssignedValue | backend-express/prusaSlicerWrapper.js:201-215 | a marked line `… = digits` yields the number the digits spell |
| PrusaSlicer.FilamentGramsChoice | backend-express/prusaSlicerWrapper.js:223-231 | the `[g]` value wins unless it is 0; then a positive length gives positive grams, otherwise 0 |
| PrusaSlicer.TempPathsDiffer | backend-express/prusaSlicerWrapper.js:35-40 | the model and G-code paths of one request differ |
| PrusaSlicer.Cleanup | backend-express/prusaSlicerWrapper.js:249-257 | every listed file whose unlink does not fail is gone, a failing one stays without stopping the rest, and nothing else changes |
| PrusaSlicer.Slice | backend-express/prusaSlicerWrapper.js:34-74 | on every path each temporary file is removed unless its unlink fails, and no other file changes; success exactly when the write, the run and the read succeed; the stats are those of the G-code |
| PrusaSlicer.SliceAt | backend-express/prusaSlicerWrapper.js:42-73 | the same for any two distinct temporary paths |
| KiriWrapper.BuildKiriParams | backend-express/kiriWrapper.js:62-130 | the output file, then every setting in its fixed order with the value the configuration decides |
| KiriWrapper.DefaultConfig | backend-express/kiriWrapper.js:63-68 | an empty configuration slices standard PLA: 0.2 mm layers, 20 % infill, no supports, 200/60 °C, 0.4 mm nozzle |
| KiriWrapper.UnknownQuality | backend-express/kiriWrapper.js:102-103 | an unknown quality slices like standard: 0.2 mm layers and a 0.4 mm nozzle |
| KiriWrapper.UnknownMaterial | backend-express/kiriWrapper.js:104 | an unknown material prints at the PLA temperatures |
| KiriWrapper.Choose | backend-express/kiriWrapper.js:62-104 | layer height 0.1–0.4 mm, nozzle 0.4–0.8 mm, 20 % infill and no supports unless given, nozzle 200–250 °C and bed 60–100 °C |
| KiriWrapper.FirstEMatches | backend-express/kiriWrapper.js:151 | the E capture exists exactly when some `E` is followed by a digit or point, and is then a run of them |
| KiriWrapper.ParseGcodeStats | backend-express/kiriWrapper.js:135-186 | the line loop computes the stats of the tally, and the time is 45 s per layer with non-negative material |
| KiriWrapper.StatsOf | backend-express/kiriWrapper.js:168-185 | the time is 45 s per layer, the layer count is the tally's, and a non-negative extruded length weighs non-negative grams |
| KiriWrapper.ScanLineGrows | backend-express/kiriWrapper.js:144-158 | a line never decreases the extruded length or the layer count |
| KiriWrapper.ScanMeaning | backend-express/kiriWrapper.js:144-167 | the tally counts the layer lines, ends at the last E reading and sums the rises between readings |
| KiriWrapper.RisesOfAscending | backend-express/kiriWrapper.js:152-157 | for readings that never fall, the rises add up to the last reading minus the start |
| KiriWrapper.ReadingsNonNegative | backend-express/kiriWrapper.js:151-153 | every finite E reading is non-negative |
| KiriWrapper.InTempDir | backend-express/kiriWrapper.js:16-18 | the model and output files lie in the temporary directory |
| KiriWrapper.TempPathsDiffer | backend-express/kiriWrapper.js:17-18 | the model and output files differ |
| KiriWrapper.SliceWithKiri | backend-express/kiriWrapper.js:15-57 | once the temporary directory exists, it and everything under it are removed on every path unless the removal fails, which changes nothing outside it and not the result; success exactly when it is created and the write and the run succeed |
| KiriWrapper.RunInTempDir | backend-express/kiriWrapper.js:20-48 | the try block touches only files inside the temporary directory |
| Workspace.FileSystem.WriteFile | backend-express/prusaSlicerWrapper.js:44 | a write succeeds unless it fails, then stores the content under the path; a failed write changes nothing |
| Workspace.FileSystem.ReadFile | backend-express/prusaSlicerWrapper.js:56 | a read returns the stored content, and fails exactly when the file does not exist |
| Workspace.FileSystem.Unlink | backend-express/prusaSlicerWrapper.js:252 | an unlink succeeds exactly for an existing file without error; unless it fails the file is gone, and nothing else changes |
| Workspace.FileSystem.MakeTempDir | backend-express/kiriWrapper.js:16 | a new directory is created and returned; an existing name is an error that changes nothing |
| Workspace.FileSystem.RemoveTree | backend-express/kiriWrapper.js:52 | unless it fails, the directory and every file and directory under it are gone and nothing else; a failure changes nothing |
| Quality.LayerHeightOf | backend-express/kiriWrapper.js:102 | the layer height of any quality lies between 0.1 and 0.4 mm |
| Quality.NozzleSizeOf | backend-express/kiriWrapper.js:103 | the nozzle of any quality lies between 0.4 and 0.8 mm |
| Quality.SameQualities | src/lib/kiri/slicingService.ts:18-37 | the layer and nozzle tables know the same qualities |
| Quality.UnknownQualityIsStandard | src/lib/kiri/slicingService.ts:60-61 | a quality neither table knows is printed like standard |
| Quality.LayerFitsNozzle | src/lib/kiri/slicingService.ts:18-37 | every layer is at most three quarters of its nozzle, with equality only for draft |
| Filament.Grams | src/lib/kiri/slicingService.ts:84-101 | grams are non-negative for non-negative length and density, positive for positive ones |
| Filament.GramsAdditive | src/lib/kiri/slicingService.ts:84-101 | weighing two lengths apart gives the weight of both together |
| Filament.GramsMonotone | src/lib/kiri/slicingService.ts:84-101 | more filament weighs more |
| SlicingService.FileTypeOf | src/lib/kiri/slicingService.ts:56-58 | obj and 3mf by their lower-cased suffix, stl for everything else |
| SlicingService.SuffixesExclusive | src/lib/kiri/slicingService.ts:56-58 | a name ends in at most one of the three suffixes |
| SlicingService.DensityOf | src/lib/kiri/slicingService.ts:91-100 | the density lies between 1.04 and 1.30, and is PLA's for an unknown material |
| SlicingService.NozzleTemp | src/lib/kiri/slicingService.ts:125-128 | the nozzle temperature lies between 200 and 250 °C and is 210 exactly for a material other than pla, abs, petg and tpu |
| SlicingService.BedTemp | src/lib/kiri/slicingService.ts:129-131 | the bed temperature lies between 60 and 100 °C and is 60 exactly for a material other than abs and petg |
| SlicingService.FanSpeed | src/lib/kiri/slicingService.ts:132-133 | the fan speed is at most 255, full exactly for pla and off exactly for abs |
| SlicingService.DeviceFor | src/lib/kiri/slicingService.ts:61-144 | the nozzle is the quality's (line 61), between 0.4 and 0.8 mm, and the filament 1.75 mm (lines 137-144) |
| SlicingService.ProcessFor | src/lib/kiri/slicingService.ts:60-134 | the quality's layer height, 3 shells, 3 top and 3 bottom layers, hex fill, `infill / 100` as the fill, support density positive exactly with supports, and the material's nozzle temperature, bed temperature and fan speed |
| SlicingService.SettingsFitNozzle | src/lib/kiri/slicingService.ts:60-61 | the layer height sent is at most 0.75 of the nozzle sent, with equality only for draft |
| SlicingService.Listen | src/lib/kiri/slicingService.ts:67-110 | the listener's loop over the events settles with the resolution function's value |
| SlicingService.ResolvesOnExport | src/lib/kiri/slicingService.ts:80-108 | the promise resolves from the listener exactly when some event reports a finished export |
| SlicingService.ZerosWithoutStats | src/lib/kiri/slicingService.ts:84-106 | without slice statistics the result has no time, no layers and no material |
| SlicingService.MaterialNonNegative | src/lib/kiri/slicingService.ts:84-105 | non-negative reported distances give non-negative material |
| SlicingService.SliceModel | src/lib/kiri/slicingService.ts:39-172 | without an engine it rejects before any call; otherwise the engine calls are made in order up to the one that throws, the first export resolves, and a throw rejects only a pending promise |
| SliceApi.LayerHeightFor | backend-express/server.js:75-86 | the explicit layer height, else the quality's, else 0.2 mm; without an explicit one it lies in 0.1–0.3 |
| SliceApi.SlicingConfigOf | backend-express/server.js:82-93 | quality and material default to standard and pla, the layer height is always set, the other fields pass through, and there is no scale |
| SliceApi.QualityTablesAgree | backend-express/server.js:75-80 | the endpoint's table agrees with the KiriMoto quality table on its four qualities and lacks only the nozzle ones |
| SliceApi.LayerHeightAlwaysOverridden | backend-express/server.js:85 | PrusaSlicer always receives a layer height override, with the resolved value |
| SliceApi.ResponseOf | backend-express/server.js:102-119 | status 200 with the statistics exactly on success, otherwise 500 with the error and the retry flag |
| SliceApi.HandleSlice | backend-express/server.js:63-120 | 400 without a file, leaving the files alone; 500 retryable on bad JSON; otherwise no file but the two temporary ones changes, both are removed when no unlink fails, and 200 exactly when slicing succeeds |
| KiriFrame.SliceResultOf | src/lib/kiri/kiriFrame.ts:133-138 | time, weight and layers of the response, 0 when missing, and its gcode |
| KiriFrame.SliceOutcome | src/lib/kiri/kiriFrame.ts:128-139 | a request resolved with data gives the slice result, one resolved without data the `TypeError` of reading it, a rejected one its error |
| KiriFrame.KiriFrame.constructor | src/lib/kiri/kiriFrame.ts:15-24 | no iframe, not ready, no handlers and no requests |
| KiriFrame.KiriFrame.Init | src/lib/kiri/kiriFrame.ts:26-57 | the iframe exists and the message listener is registered; nothing else changes |
| KiriFrame.KiriFrame.Loaded | src/lib/kiri/kiriFrame.ts:42-49 | the bridge becomes ready; nothing else changes |
| KiriFrame.KiriFrame.HandleMessage | src/lib/kiri/kiriFrame.ts:59-78 | foreign origins are ignored; a pending id is resolved once and removed; other messages go to their type's handler |
| KiriFrame.KiriFrame.SendMessage | src/lib/kiri/kiriFrame.ts:80-103 | not ready: rejected, nothing changes; ready: the next id is taken, posted and pending |
| KiriFrame.KiriFrame.LoadModel | src/lib/kiri/kiriFrame.ts:109-114 | sends a `load` request with the bytes and the file name |
| KiriFrame.KiriFrame.SetMode | src/lib/kiri/kiriFrame.ts:116-118 | sends a `mode` request |
| KiriFrame.KiriFrame.SetDevice | src/lib/kiri/kiriFrame.ts:120-122 | sends a `device` request |
| KiriFrame.KiriFrame.SetProcess | src/lib/kiri/kiriFrame.ts:124-126 | sends a `process` request |
| KiriFrame.KiriFrame.Slice | src/lib/kiri/kiriFrame.ts:128-129 | sends a `slice` request without data |
| KiriFrame.KiriFrame.Timeout | src/lib/kiri/kiriFrame.ts:95-101 | a still-pending request is rejected with "Request timeout: <type>" and removed; otherwise nothing changes |
| KiriFrame.KiriFrame.On | src/lib/kiri/kiriFrame.ts:105-107 | the handler replaces any earlier one for its event |
| KiriFrame.KiriFrame.Destroy | src/lib/kiri/kiriFrame.ts:141-148 | no iframe, not ready, and no longer listening |
| KiriFrame.KiriFrame.DestroyAsWritten | src/lib/kiri/kiriFrame.ts:141-148 | no iframe and not ready, but the listener stays registered |
| KiriFrame.SendTwice | src/lib/kiri/kiriFrame.ts:85-88 | two sends take two increasing ids, both pending |
| KiriFrame.RespondTwice | src/lib/kiri/kiriFrame.ts:66-70 | a response settles its request once; the same response again settles nothing |
| KiriFrame.ListenerOutlivesDestroy | src/lib/kiri/kiriFrame.ts:145 | with destroy as written, a response after destroy still settles a request |
| KiriFrame.NothingAfterDestroy | src/lib/kiri/kiriFrame.ts:141-148 | with destroy as intended, that response changes nothing |
| KiriFrameWrapper.Either | src/lib/kiri/kiriFrameWrapper.ts:130-133 | `a || b` on optional numbers |
| KiriFrameWrapper.SliceResultOf | src/lib/kiri/kiriFrameWrapper.ts:129-134 | time, material and layers each from the message, else from its result, else 0; the volume from the message, else the result's volume as it is, a 0 included, else absent |
| KiriFrameWrapper.ErrorText | src/lib/kiri/kiriFrameWrapper.ts:141 | the error, else the message, else "Kiri:Moto error" |
| KiriFrameWrapper.FirstOf | src/lib/kiri/kiriFrameWrapper.ts:114 | the index of the first queued entry of a type, none exactly when no entry has it |
| KiriFrameWrapper.Without | src/lib/kiri/kiriFrameWrapper.ts:117 | the queue keeps exactly the entries of the other types |
| KiriFrameWrapper.WithoutAbsent | src/lib/kiri/kiriFrameWrapper.ts:117 | filtering out a type that is not queued keeps the queue |
| KiriFrameWrapper.WithoutConcat | src/lib/kiri/kiriFrameWrapper.ts:117 | filtering a concatenation filters each part, in order |
| KiriFrameWrapper.WithoutAppend | src/lib/kiri/kiriFrameWrapper.ts:117 | entries of other types keep their order |
| KiriFrameWrapper.SettingsFor | src/lib/kiri/kiriFrameWrapper.ts:225-246 | the slice settings carry the configuration's values, infill as a fraction, travel at twice the feed rate, 50/100 without speed |
| KiriFrameWrapper.KiriFrameWrapper.constructor | src/lib/kiri/kiriFrameWrapper.ts:38-41 | no iframe, not ready, an empty queue |
| KiriFrameWrapper.KiriFrameWrapper.Settle | src/lib/kiri/kiriFrameWrapper.ts:116 | settling takes effect only for a promise not settled before |
| KiriFrameWrapper.KiriFrameWrapper.NewPromise | src/lib/kiri/kiriFrameWrapper.ts:47 | a fresh promise, nothing else changes |
| KiriFrameWrapper.KiriFrameWrapper.Initialize | src/lib/kiri/kiriFrameWrapper.ts:46-97 | creates the iframe, listens, and queues an `init` entry for a fresh promise |
| KiriFrameWrapper.KiriFrameWrapper.InitTimer | src/lib/kiri/kiriFrameWrapper.ts:66-70 | posts `init` exactly when the iframe exists |
| KiriFrameWrapper.KiriFrameWrapper.InitTimeout | src/lib/kiri/kiriFrameWrapper.ts:73-80 | if not ready, becomes ready and resolves the initialize promise; otherwise nothing changes |
| KiriFrameWrapper.KiriFrameWrapper.SettleFirstOf | src/lib/kiri/kiriFrameWrapper.ts:114-117 | settles the first entry of a type and drops all of that type; none queued changes nothing |
| KiriFrameWrapper.KiriFrameWrapper.HandleMessage | src/lib/kiri/kiriFrameWrapper.ts:102-145 | foreign origins are ignored; ready makes the bridge ready and, like loaded and sliced, settles its first entry, changing nothing else when there is none; an error rejects the head of the queue |
| KiriFrameWrapper.KiriFrameWrapper.LoadModel | src/lib/kiri/kiriFrameWrapper.ts:162-209 | not ready: fails at once; a failed read rejects; a missing iframe rejects; otherwise posts `load` and queues its entry |
| KiriFrameWrapper.KiriFrameWrapper.Slice | src/lib/kiri/kiriFrameWrapper.ts:214-265 | not ready: fails at once; a missing iframe rejects; otherwise posts the settings and queues a `slice` entry |
| KiriFrameWrapper.KiriFrameWrapper.LoadTimeout | src/lib/kiri/kiriFrameWrapper.ts:190-196 | rejects the first `load` entry with "Load timeout" and drops all `load` entries |
| KiriFrameWrapper.KiriFrameWrapper.SliceTimeout | src/lib/kiri/kiriFrameWrapper.ts:253-259 | rejects the first `slice` entry with "Slice timeout" and drops all `slice` entries |
| KiriFrameWrapper.KiriFrameWrapper.Destroy | src/lib/kiri/kiriFrameWrapper.ts:270-281 | no iframe, not ready, an empty queue and no longer listening |
| KiriFrameWrapper.KiriFrameWrapper.DestroyAsWritten | src/lib/kiri/kiriFrameWrapper.ts:270-281 | the same, except that the listener stays registered |
| KiriFrameWrapper.EngineOriginAccepted | src/lib/kiri/kiriFrameWrapper.ts:104 | the engine's origin passes the origin check |
| KiriFrameWrapper.ReadyAfterDestroy | src/lib/kiri/kiriFrameWrapper.ts:276 | with destroy as written, a `ready` message after destroy makes the bridge ready again |
| KiriFrameWrapper.NotReadyAfterDestroy | src/lib/kiri/kiriFrameWrapper.ts:270-281 | with destroy as intended, it stays not ready |
| UseKiriFrame.AssignmentAt | src/pages/model-upload/components/useKiriFrame.js:41-45 | an assignment pattern captures a non-empty run of its capture class |
| UseKiriFrame.FilamentAt | src/pages/model-upload/components/useKiriFrame.js:44 | the filament pattern captures a non-empty run of digits and points |
| UseKiriFrame.MatchAt | src/pages/model-upload/components/useKiriFrame.js:41-45 | every capture is digits and points, only digits for the layers pattern |
| UseKiriFrame.FirstMatch | src/pages/model-upload/components/useKiriFrame.js:41-45 | the search finds the leftmost matching position, none exactly when no position matches |
| UseKiriFrame.Capture | src/pages/model-upload/components/useKiriFrame.js:41-45 | `match` succeeds exactly when some position matches |
| UseKiriFrame.CaptureAt | src/pages/model-upload/components/useKiriFrame.js:41-45 | the capture is the one at the leftmost matching position |
| UseKiriFrame.FirstCapture | src/pages/model-upload/components/useKiriFrame.js:41-44 | `m1 \|\| m2`: the primary pattern's capture when it matches, else the fallback's |
| UseKiriFrame.NumberOfCapture | src/pages/model-upload/components/useKiriFrame.js:47-49 | a capture gives a number that is never negative, no capture gives null |
| UseKiriFrame.ParseGcodeStats | src/pages/model-upload/components/useKiriFrame.js:37-52 | each statistic is set exactly when its patterns match; time and material come from their macro when it matches and from the fallback pattern otherwise; layers are a non-negative whole number |
| UseKiriFrame.Footer | src/pages/model-upload/components/useKiriFrame.js:119-123 | the footer splits into the three macro lines |
| UseKiriFrame.FilledLineMatches | src/pages/model-upload/components/useKiriFrame.js:41-45 | a filled macro line matches its own pattern and captures its number |
| UseKiriFrame.FilamentLineMatches | src/pages/model-upload/components/useKiriFrame.js:44 | a line `; filament <digits> mm` between line breaks matches the filament pattern and captures exactly the digits |
| UseKiriFrame.FilamentFallback | src/pages/model-upload/components/useKiriFrame.js:43-48 | without a `material=` macro, G-code whose first filament match is such a line reports the filament length the digits spell |
| UseKiriFrame.FooterRoundTrip | src/pages/model-upload/components/useKiriFrame.js:37-52 | the footer with its macros filled by whole numbers parses back to exactly those numbers |
| UseKiriFrame.Sparse | src/pages/model-upload/components/useKiriFrame.js:116 | the infill fraction is the percentage over 100 clamped to 0–1, 0.2 when missing |
| UseKiriFrame.ProcessModelSetup | src/pages/model-upload/components/useKiriFrame.js:109-137 | fails with "Kiri not ready" exactly when not ready; otherwise the footer macros, one extruder, first layer as high as the others, and the 0.2 / 0.4 / 1.75 defaults |
| UseKiriFrame.ExportedStats | src/pages/model-upload/components/useKiriFrame.js:154 | with G-code the statistics are what `parseGcodeStats` reads from it; without G-code every statistic is null |
| Text.Lines | backend-express/kiriWrapper.js:136 | `split('\n')` gives at least one line, none containing a line break |
| Text.LinesOfJoinLines | src/pages/model-upload/components/useKiriFrame.js:119-123 | splitting undoes joining for lines without line breaks |
| Text.ParseNatToString | src/pages/model-upload/components/useKiriFrame.js:47-49 | `parseFloat` and `Number` read back a whole number's digits |
| Text.ReplaceSpaceRuns | src/pages/admin/AdminPricing.jsx:73 | the result has no white space, and a string without white space is unchanged |
| Text.ReplaceSpaceRunsSplit | src/pages/admin/AdminPricing.jsx:73 | one maximal run of white space becomes exactly one separator, and the text on either side is replaced on its own |
| Text.ParseFloat | backend-express/kiriWrapper.js:153 | `parseFloat` is NaN exactly when the text starts with no digits either before or after a point, and a finite result is never negative |
| Text.NumberOf | src/pages/model-upload/components/useKiriFrame.js:47-49 | `Number` of a text with anything after its leading decimal literal is NaN |
| Text.Lower | src/pages/admin/AdminPricing.jsx:73 | `toLowerCase` keeps the length and lower-cases each letter A–Z, leaving other characters |
| Text.Upper | src/pages/admin/AdminPricing.jsx:30 | `toUpperCase` keeps the length and upper-cases each letter a–z, leaving other characters |
| Common.Round | src/lib/kiri/pricingService.ts:100 | `Math.round` lies within half a unit of its argument |
| Common.RoundTo2 | backend-express/prusaSlicerWrapper.js:241 | rounding to two decimals moves a number by at most 0.005 and keeps NaN |

## Left out

- Console logging, the DOM styling of the iframes, and the `alert`s of the admin pages: they have no effect on the modelled state.
- Network requests of the admin pages: the response is a parameter (`LoadConfig`, `LoadFees`). Failed requests and the loading and saving flags are not modelled. Saving is modelled as the conversion it performs, not as the POST.
- `AdminFees.LoadFees`: a `null` response (`data || []`) is modelled as the empty list the caller passes.
- JavaScript number rendering: command-line arguments and formatted prices keep numbers as values or as whole-number digits. The model does not render fractions or exponents as text.
- Floating point: numbers are exact reals. NaN is modelled only where a `Number` or `parseFloat` of a regex capture can produce it. Infinity and rounding error are not modelled.
- `Math.PI` is a positive constant; no proof depends on its digits.
- Case mapping is ASCII only. That is exact for the patterns, which have no `u` flag. For names shown in the admin pages, non-ASCII letters are left unchanged.
- Table lookups by a key on `Object.prototype` (such as `constructor`) are not modelled: every table is a map of its own keys.
- Process execution (`exec`) and the slicers themselves are an outcome parameter: a normal exit with the G-code written or not, or a failure with its message. The command's text and `maxBuffer` are not interpreted. The KiriMoto wrapper's stderr warning is logging only.
- Workspace.FileSystem.RemoveTree: a failing `fs.rm` is modelled as removing nothing; a removal that fails part way through the tree is not modelled.
- `PrusaSlicer.Slice`, `KiriWrapper.SliceWithKiri`: the temporary file name comes from `Date.now()` and the directory from `mkdtemp`; both are parameters. Concurrent requests that collide on a name are not modelled.
- `initialize` of the PrusaSlicer wrapper (creating its temp directory) and the constant paths of the profiles are not modelled beyond the path strings.
- The `/api/slice` handler receives the parsed configuration, or the parse error, as a parameter. JSON parsing itself and non-object JSON values are not modelled. `MATERIAL_DENSITIES` and `QUALITY_TO_LAYER_HEIGHT` in server.js are never used by the handler and are not modelled. The other endpoints of server.js are not part of this model.
- Timers are explicit method calls (`Loaded`, `Timeout`, `InitTimer`, `InitTimeout`, `LoadTimeout`, `SliceTimeout`). Their durations and relative ordering are not modelled; any interleaving the caller chooses is allowed.
- `KiriFrame.KiriFrame.Init` and `KiriFrameWrapper.KiriFrameWrapper.Initialize`: calling init twice registers a second listener in the source. The model keeps a single `listening` flag. The iframe `onerror` rejection and the `try/catch` around element creation are not modelled.
- Handlers and settings objects are opaque identities (`nat`). The handlers' own effects are recorded as deliveries and not run.
- `KiriFrameWrapper.KiriFrameWrapper.LoadModel`: the `FileReader` callback runs inside the call, with its outcome as a parameter. The asynchrony between reading and sending is not modelled.
- `KiriFrameWrapper.KiriFrameWrapper.HandleMessage`: message data is a record of the fields read. Falsy non-number values (empty strings, `false`) in the statistics fields are not distinguished from absent ones.
- The boot effect of `useKiriFrame` is not modelled: `loadKiriScript`, `waitForApi`, creating the frame, and its clean-up. Neither are the engine calls of `processModel` (`parse`, `slice`, `prepare`, `export`). The model covers only the settings it computes and the statistics it reads from the exported G-code.
- `UseKiriFrame.AssignmentAt`: `\s*` is matched within the characters JavaScript counts as white space. A run crossing a line break is allowed, as in the source. Unicode white space beyond the listed characters is not modelled.
- `SlicingService.SliceModel`: `file.arrayBuffer()` is not modelled as a failure point. The engine listener events are a parameter sequence.
- The `estimator.ts`, `loadKiri.ts`, `slicingApiClient.ts` and admin pages other than pricing and fees are not part of this model.

## Findings

| source | as written | input that shows it | evidently intended | confidence | as-written member | corrected member |
|---|---|---|---|---|---|---|
| src/lib/kiri/kiriFrame.ts:145 | `destroy` removes `this.handleMessage.bind(this)`, a new function, so the listener added at line 39 is never removed | `init`, send a request, `destroy`, then a message from grid.space answering that request: the request is still resolved | `destroy` stops listening, so no message is handled afterwards | high (not executed) | KiriFrame.ListenerOutlivesDestroy | KiriFrame.NothingAfterDestroy |
| src/lib/kiri/kiriFrameWrapper.ts:276 | the same `removeEventListener(… .bind(this))` leaves the listener of line 59 registered | `initialize`, `destroy`, then a `ready` message from grid.space: the destroyed bridge becomes ready again | `destroy` stops listening, so the bridge stays not ready | high (not executed) | KiriFrameWrapper.ReadyAfterDestroy | KiriFrameWrapper.NotReadyAfterDestroy |
