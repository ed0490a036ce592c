# AGRO-CAST-AI core logic in Dafny

AGRO-CAST-AI is a farming dashboard written in React/TypeScript. Almost all of it is views. This project models the computations underneath those views and proves properties about them:

- **Energy-efficiency estimator** (`calculateEnergyEfficiency`). From irrigation, fertilizer and fuel usage it derives:
  - the energy use;
  - a yield-per-kWh efficiency score;
  - a cost and CO₂ emissions;
  - a 1–10 sustainability rating;
  - an ordered list of advice.
- **Crop-yield estimator** (`predictCropYield`). It combines:
  - table lookups for crop, season and soil;
  - a weather multiplier;
  - a random factor, which is an explicit parameter here.
- **Application state**. This is the `appReducer` over the saved predictions and the current prediction. JavaScript object identity is modelled by an explicit `id`.
- **Marketplace**. This covers the search/filter view of the listings, and adding a listing. Only a signed-in farmer may add one.
- **Economic insights**:
  - the selected crop's price entry and its profit forecast;
  - the trend messages;
  - the "top performers" and "market declines" summaries.
- **Dashboard**. This covers the metric cards and the "Recent Predictions" table.
- **Voice commands**. This is the keyword dispatcher that picks the assistant's spoken reply.

The project has one Dafny module per source file. There are also three helper modules:

- `Wrappers` holds `Option`;
- `Text` holds ASCII `toLowerCase` and the substring test `includes`;
- `Sequences` holds the subsequence relation that the `filter` results are stated with.

Measured quantities (hours, kilograms, kWh, prices, yields, factors) are `real`. The sustainability rating and the fixed sustainability score are `int`. The marketplace's quantity and price per ton are `Option<int>`, the result of `parseInt`. Counts are `nat`.

Some parts of the source change state step by step, with reassignments and pushes but no loops. These are methods made of assignments, each proved against a specification function:

- the rating and the advice list of the energy estimator;
- the weather multiplier of the yield estimator;
- the page state that adding a marketplace listing replaces.

Everything else in the source is a pure expression, so it is a function here.

## Model

| member | source | states |
|---|---|---|
| EnergyCalculator.Message | src/utils/energyCalculator.ts:66-84 | no contract of its own: the exact text pushed for each piece of advice |
| EnergyCalculator.EquipmentPower | src/utils/energyCalculator.ts:22 | a non-zero equipment power is used as given and a zero one falls back to 10 kW; the power used is never zero and is positive for non-negative input |
| EnergyCalculator.TotalEnergy | src/utils/energyCalculator.ts:22-26 | energy is non-negative for non-negative input, and zero when no irrigation, fertilizer or fuel is used |
| EnergyCalculator.EfficiencyScore | src/utils/energyCalculator.ts:29 | zero when total energy is not positive; otherwise score × energy = yield × 1000, so there is never a division by zero; non-negative for non-negative input |
| EnergyCalculator.ElectricityRate | src/utils/energyCalculator.ts:32 | a non-zero rate is used as given and a zero rate falls back to 0.12; the rate used is never zero |
| EnergyCalculator.EnergyCost | src/utils/energyCalculator.ts:32-33 | cost is non-negative for non-negative input; a zero rate charges 0.12 per kWh |
| EnergyCalculator.EmissionFactor | src/utils/energyCalculator.ts:36-44 | a listed energy type gets its table factor and any other type gets 0.5; every factor is in (0, 0.8] |
| EnergyCalculator.Co2Emissions | src/utils/energyCalculator.ts:45 | emissions lie between 0 and 0.8 × total energy for non-negative input |
| EnergyCalculator.SourceBonus | src/utils/energyCalculator.ts:49-55 | the energy type moves the rating by between −2 and +3 |
| EnergyCalculator.RatingSum | src/utils/energyCalculator.ts:48-59 | the unclamped rating already lies in [3, 10]; diesel rates at most 5; solar and wind rate at least 8 |
| EnergyCalculator.Applies | src/utils/energyCalculator.ts:65-84 | no contract of its own: the condition guarding each push (grid or diesel; over 150 h; over 200 kg; efficiency under 5; always; not solar) |
| EnergyCalculator.Rank | src/utils/energyCalculator.ts:63-85 | every piece of advice has a unique position in the push order |
| EnergyCalculator.Pick | src/utils/energyCalculator.ts:65-85 | one conditional push adds the advice exactly when its condition holds |
| EnergyCalculator.SelectAdvice | src/utils/energyCalculator.ts:63-85 | advice is selected exactly when it is a candidate whose condition holds; the list is never longer than the candidates |
| EnergyCalculator.Recommendations | src/utils/energyCalculator.ts:63-85 | no contract of its own: the applicable advice in push order; `RecommendationsShape` states its properties and `CalculateEnergyEfficiency` is proved equal to it |
| EnergyCalculator.SelectAdviceKeepsOrder | src/utils/energyCalculator.ts:63-85 | candidates in push order give a selection in push order without repetition (by induction) |
| EnergyCalculator.SelectAdviceStep | src/utils/energyCalculator.ts:63-85 | selecting from a suffix is the first candidate's push followed by selecting from the rest |
| EnergyCalculator.RecommendationsUnfolded | src/utils/energyCalculator.ts:63-85 | the recommendation list is the six conditional pushes in source order |
| EnergyCalculator.CalculateEnergyEfficiency | src/utils/energyCalculator.ts:20-95 | each result field equals its specification; the rating equals the unclamped sum and lies in [1, 10], so the clamp never changes it; the advice list built by pushes equals the specified selection |
| EnergyCalculator.RecommendationsShape | src/utils/energyCalculator.ts:63-85 | the list holds exactly the applicable advice, in push order; off-peak advice is always present; 1 to 6 entries |
| EnergyCalculator.RenewablesAdviceFirst | src/utils/energyCalculator.ts:65-67 | switch-to-renewables advice is present iff the type is grid or diesel, and is then first |
| EnergyCalculator.SolarAdviceLast | src/utils/energyCalculator.ts:83-85 | install-solar advice is present iff the type is not solar, and is then last |
| EnergyCalculator.DieselFarmFigures | src/utils/energyCalculator.ts:22-60 | a diesel farm (120 h at 15 kW, 200 kg, 50 l, 5.5 t) uses 2316 kWh, costs 277.92, emits 1852.8 kg, scores below 5 and rates 3 |
| MlModels.Lookup | src/utils/mlModels.ts:39-41 | no contract of its own: `table[key] || fallback` on an association list; `LookupFinds` and `LookupWithin` state its meaning |
| MlModels.LookupFinds | src/utils/mlModels.ts:39-41 | a key in the table gets the value of its first entry; a key absent from the table gets the fallback |
| MlModels.LookupWithin | src/utils/mlModels.ts:39-41 | a lookup lies within any bounds that hold for every table value and for the fallback |
| MlModels.BaseYield | src/utils/mlModels.ts:12-39 | the base yield lies in [2.1, 25] t/ha |
| MlModels.SeasonMultiplier | src/utils/mlModels.ts:23-40 | the season multiplier lies in [0.7, 1.1] |
| MlModels.SoilMultiplier | src/utils/mlModels.ts:30-41 | the soil multiplier lies in [0.85, 1.15], and is 1 for an empty soil type |
| MlModels.MissingKeysFallBack | src/utils/mlModels.ts:39-41 | an unknown crop gives 5.0; an unknown season or soil type gives 1.0 |
| MlModels.KnownKeysUseTable | src/utils/mlModels.ts:12-41 | a known crop, season or non-empty soil type gets a value written against it in its table |
| MlModels.RainfallFactor | src/utils/mlModels.ts:45-50 | no rainfall gives no factor; below 300 mm gives 0.7, above 1200 mm gives 0.9, and within [300, 1200] mm gives 1.1 |
| MlModels.TemperatureFactor | src/utils/mlModels.ts:52-56 | no temperature gives no factor; below 10 or above 35 gives 0.8; within [20, 28] inclusive gives 1.1; any other temperature in [10, 35] leaves the multiplier unchanged (factor 1) |
| MlModels.WeatherMultiplier | src/utils/mlModels.ts:44-56 | the weather multiplier lies in [0.56, 1.21], and is 1 without weather data |
| MlModels.ExpectedYield | src/utils/mlModels.ts:61 | no contract of its own: the product of base yield and the three multipliers, without the random factor; `ExpectedYieldPositive` and `PredictCropYield` state its properties |
| MlModels.ExpectedYieldPositive | src/utils/mlModels.ts:12-61 | every factor is positive, so the deterministic product is positive |
| MlModels.PredictCropYield | src/utils/mlModels.ts:10-61 | the multiplier is built up by the source's branch steps; the result is base × season × soil × weather × r, is positive, and lies in [0.9·P, 1.1·P) |
| MlModels.PredictionBand | src/utils/mlModels.ts:59-61 | any random factor in [0.9, 1.1) puts the estimate within 10 % of the expected yield, and above zero |
| MlModels.UnknownCropInSummer | src/utils/mlModels.ts:39-61 | an unknown crop in summer with no soil or weather has expected yield 5.5 t/ha, so its estimate lies in [4.95, 6.05) |
| AppContext.WithEnergy | src/context/AppContext.tsx:51-54 | the updated prediction keeps crop, location, season and predicted yield, takes the new energy data, and is a new object |
| AppContext.ReplaceIdentical | src/context/AppContext.tsx:58-60 | the mapped list keeps its length; entries identical to the target are replaced and all others are unchanged |
| AppContext.AppReducer | src/context/AppContext.tsx:36-65 | ADD appends at the end and makes the payload current; SET changes only the current prediction; UPDATE with no current prediction changes nothing, and otherwise replaces exactly the entries identical to the current one with the updated copy; other actions change nothing |
| AppContext.Ids | src/context/AppContext.tsx:16-19 | the identities in use are those of the listed predictions and of the current one |
| AppContext.InitialStateIsEmpty | src/context/AppContext.tsx:26-29 | the initial state has no predictions and no current prediction, and is consistent |
| AppContext.ReducerPreservesConsistency | src/context/AppContext.tsx:36-65 | every action on a consistent state gives a consistent state (one identity, one content), provided payloads agree with the state and the new object's identity is fresh |
| AppContext.UpdatedCurrentStaysListed | src/context/AppContext.tsx:51-60 | a current prediction listed before an update is listed, in the same place, after it |
| AppContext.OldCurrentNoLongerListed | src/context/AppContext.tsx:58-60 | after an update with a fresh identity, the old current object is no longer in the list |
| AppContext.LookAlikeUntouched | src/context/AppContext.tsx:58-59 | an entry that equals the current prediction in every field except identity is not updated |
| Marketplace.QualityName | src/components/Marketplace.tsx:15 | a quality is written as one of "Premium", "Standard" or "Organic" |
| Marketplace.QualityNamesDistinct | src/components/Marketplace.tsx:95 | different qualities have different names, so the quality filter picks one quality |
| Marketplace.MatchesSearch | src/components/Marketplace.tsx:91-93 | no contract of its own: the lower-cased term occurs in the lower-cased crop, farmer name or location; `SearchIgnoresCase` and `EmptyOccursEverywhere` state its properties |
| Marketplace.Keeps | src/components/Marketplace.tsx:91-97 | no contract of its own: the search matches and each set crop or quality filter matches exactly; `FiltersAreExact` states the latter |
| Marketplace.FilterListings | src/components/Marketplace.tsx:90-98 | the result is a subsequence of the listings, in their original order, holding every listing that matches the search and filters as often as it is listed, and nothing else |
| Marketplace.EmptyOccursEverywhere | src/components/Marketplace.tsx:91-93 | an empty search term matches every text |
| Marketplace.NoFiltersKeepAll | src/components/Marketplace.tsx:90-98 | with an empty search and no crop or quality filter, every listing is kept |
| Marketplace.SearchIgnoresCase | src/components/Marketplace.tsx:91-93 | search terms that lower-case alike give the same result |
| Marketplace.SearchTermCase | src/components/Marketplace.tsx:91-93 | searching for a term is the same as searching for its lower case |
| Marketplace.FiltersAreExact | src/components/Marketplace.tsx:94-95 | a set crop or quality filter keeps only exact matches on that field |
| Marketplace.NewListing | src/components/Marketplace.tsx:103-111 | the new listing takes its farmer id and name from the user and the form's fields, has no image, and has the given id and creation time |
| Marketplace.MayAdd | src/components/Marketplace.tsx:101 | no contract of its own: a user is signed in and has the farmer role; `HandleAddListing` states what happens either way |
| Marketplace.MarketplacePage.constructor | src/components/Marketplace.tsx:25-88 | the page starts with its listings, an empty form of quality Standard, and the dialog closed |
| Marketplace.MarketplacePage.FilteredListings | src/components/Marketplace.tsx:90-98 | the filtered view of the page's listings is an order-preserving subsequence holding each matching listing as often as it is listed, and nothing else |
| Marketplace.MarketplacePage.HandleAddListing | src/components/Marketplace.tsx:100-126 | without a signed-in farmer nothing changes; otherwise the new listing comes first, followed unchanged by all earlier listings, the form is reset and the dialog closed |
| EconomicInsights.FirstIndex | src/components/EconomicInsights.tsx:90 | the index of the first entry for the crop, or the length when there is none |
| EconomicInsights.FindByCrop | src/components/EconomicInsights.tsx:90 | nothing is selected iff no entry has the crop; otherwise the selection is the first entry with the crop |
| EconomicInsights.ProfitForecast | src/components/EconomicInsights.tsx:91 | the forecast is the selected price × 8.5, or 0 when nothing is selected |
| EconomicInsights.Moving | src/components/EconomicInsights.tsx:271-286 | no contract of its own: the two filter tests, `change > 0` for the top performers and `change < 0` for the declines |
| EconomicInsights.Before | src/components/EconomicInsights.tsx:272-287 | no contract of its own: the two comparators, largest change percent first for the top performers and smallest first for the declines; `Sort` and `SortIsStable` state the order they give |
| EconomicInsights.Movers | src/components/EconomicInsights.tsx:270-288 | the filter is a subsequence of the prices, in their order, holding every rising (or falling) entry as often as it occurs, and nothing else |
| EconomicInsights.Insert | src/components/EconomicInsights.tsx:270-288 | inserting into a sorted list keeps it sorted and adds exactly the one entry |
| EconomicInsights.InsertBehindHead | src/components/EconomicInsights.tsx:270-288 | an entry that cannot precede the head goes into the tail, and the result stays sorted and complete |
| EconomicInsights.Sort | src/components/EconomicInsights.tsx:270-288 | the sort gives a sorted permutation of its input |
| EconomicInsights.WithKey | src/components/EconomicInsights.tsx:270-288 | the entries with a given change percent, in their order: exactly the entries of the list with that change percent |
| EconomicInsights.InsertKeepsTies | src/components/EconomicInsights.tsx:270-288 | an inserted entry goes ahead of every entry with its change percent and the order among equal change percents is unchanged (by induction) |
| EconomicInsights.SortIsStable | src/components/EconomicInsights.tsx:270-288 | the sort is stable: for every change percent, the entries with it come out in the order they went in (by induction) |
| EconomicInsights.TakeTwo | src/components/EconomicInsights.tsx:270-288 | the slice is the first min(2, n) entries |
| EconomicInsights.Summary | src/components/EconomicInsights.tsx:270-288 | the first min(2, n) of the n moving entries, sorted: the shown entries are part of the moving entries, each at most as often as it occurs there, and all come from the prices and move in the list's direction |
| EconomicInsights.TopPerformers | src/components/EconomicInsights.tsx:270-273 | at most two entries with change > 0, by change percent descending |
| EconomicInsights.Declines | src/components/EconomicInsights.tsx:285-288 | at most two entries with change < 0, by change percent ascending |
| EconomicInsights.SummaryIsBestTwo | src/components/EconomicInsights.tsx:270-288 | every qualifying entry left out ranks no higher than each entry shown; fewer than two are shown only when nothing else qualifies |
| EconomicInsights.ListsAreDisjoint | src/components/EconomicInsights.tsx:270-288 | no entry is in both lists, and an unchanged price is in neither |
| EconomicInsights.TrendOf | src/components/EconomicInsights.tsx:238-247 | the upward trend is chosen iff the change is ≥ 0 |
| EconomicInsights.TrendMessage | src/components/EconomicInsights.tsx:238 | no contract of its own: the trend text of each trend; `TrendAgreesWithSummary` states which one a listed entry gets |
| EconomicInsights.AdviceMessage | src/components/EconomicInsights.tsx:245-247 | no contract of its own: the advice text of each trend; `TrendAgreesWithSummary` states which one a listed entry gets |
| EconomicInsights.TrendAgreesWithSummary | src/components/EconomicInsights.tsx:238-288 | a top performer gets the upward/hold messages and a decline gets the declining/sell messages; an unchanged price reads as upward although it is in neither list |
| Dashboard.SumYields | src/pages/Dashboard.tsx:31 | no contract of its own: the `reduce` from the left, starting at 0; `SumBetween` bounds it and `AverageYield` divides it |
| Dashboard.TotalPredictions | src/pages/Dashboard.tsx:23 | the count is the length of the predictions list, and is zero only for an empty list |
| Dashboard.AverageYield | src/pages/Dashboard.tsx:30-32 | no average (shown as "0 t/ha") iff there are no predictions; otherwise average × count = sum of yields |
| Dashboard.EnergyEfficiency | src/pages/Dashboard.tsx:39-41 | shown iff the current prediction has energy data with a non-zero score, and it is then that score |
| Dashboard.DashboardMetrics | src/pages/Dashboard.tsx:20-53 | the cards show the count, the average, the efficiency, and the fixed 87 % |
| Dashboard.MinYield | src/pages/Dashboard.tsx:31 | the smallest predicted yield: at most every yield, and equal to one of them |
| Dashboard.MaxYield | src/pages/Dashboard.tsx:31 | the largest predicted yield: at least every yield, and equal to one of them |
| Dashboard.SumBetween | src/pages/Dashboard.tsx:31 | a sum of n yields within [lo, hi] lies within [n·lo, n·hi] (by induction) |
| Dashboard.MeanWithin | src/pages/Dashboard.tsx:31 | the mean of yields within [lo, hi] lies within [lo, hi] |
| Dashboard.MeanBetween | src/pages/Dashboard.tsx:31 | dividing a sum bounded by n·lo and n·hi by n > 0 gives a value in [lo, hi] |
| Dashboard.AverageWithinRange | src/pages/Dashboard.tsx:31 | the average yield lies between the minimum and maximum predicted yield |
| Dashboard.Reverse | src/pages/Dashboard.tsx:188 | the reversed list has the same length, with entry k taken from position n−1−k |
| Dashboard.ReverseReverse | src/pages/Dashboard.tsx:188 | reversing twice restores the list |
| Dashboard.RecentPredictions | src/pages/Dashboard.tsx:188 | min(5, n) rows: the last predictions, most recent first |
| Dashboard.RecentTable | src/pages/Dashboard.tsx:161-188 | the table is shown iff there is a prediction, and then has 1 to 5 rows |
| Dashboard.NewPredictionOnTop | src/pages/Dashboard.tsx:23-188 | after a prediction is added, the table is shown with it on the first row, and the count grows by one |
| Text.LowerChar | src/context/VoiceContext.tsx:69 | capitals A–Z map to a–z and every other character is unchanged; the result is never a capital |
| Text.ToLower | src/context/VoiceContext.tsx:69 | lower-casing keeps the length and lower-cases each character |
| Text.ToLowerIdempotent | src/context/VoiceContext.tsx:69 | lower-casing twice is lower-casing once |
| Text.ToLowerAppend | src/context/VoiceContext.tsx:69 | lower-casing distributes over concatenation |
| Text.Contains | src/context/VoiceContext.tsx:71-79 | no contract of its own: `includes`, tried at every position; `ContainsMeansOccurs` states its meaning |
| Text.ContainsMeansOccurs | src/context/VoiceContext.tsx:71 | `includes` holds iff the text occurs at some position (by induction) |
| Text.ContainsInLonger | src/context/VoiceContext.tsx:71 | text still occurs after more is added on either side |
| VoiceContext.Utterance | src/context/VoiceContext.tsx:72-80 | no contract of its own: the exact text spoken for each reply |
| VoiceContext.Mentions | src/context/VoiceContext.tsx:69-79 | no contract of its own: the lower-cased command includes the keyword; `CaseDoesNotMatter` and `MentionedAfterMore` state its properties |
| VoiceContext.HandleVoiceCommand | src/context/VoiceContext.tsx:68-82 | exactly one reply: weather first, then yield/prediction, then irrigation/water, then price/market, and help iff no keyword occurs in the lower-cased command |
| VoiceContext.DispatchFollowsRules | src/context/VoiceContext.tsx:71-81 | the if-chain gives the same reply as the first matching group of an ordered keyword table |
| VoiceContext.AnyInPair | src/context/VoiceContext.tsx:73-77 | a two-keyword group matches iff either keyword occurs |
| VoiceContext.CaseDoesNotMatter | src/context/VoiceContext.tsx:69 | a command and its lower case get the same reply |
| VoiceContext.MentionedAfterMore | src/context/VoiceContext.tsx:69-71 | a keyword a command mentions stays mentioned when more is said after it |
| VoiceContext.WeatherWins | src/context/VoiceContext.tsx:71 | a command that mentions weather gets the weather report whatever follows it |
| VoiceContext.WateringAsksForIrrigation | src/context/VoiceContext.tsx:75 | "watering", in any letter case, gets the irrigation advice, because keywords match as substrings |
| VoiceContext.LacksFirstLetter | src/context/VoiceContext.tsx:71 | text without a keyword's first letter does not contain the keyword |
| VoiceContext.LacksLetterPair | src/context/VoiceContext.tsx:71 | text in which a keyword's first two letters never appear together does not contain the keyword |

## Left out

- Floating point. Every number is an exact `real`: IEEE-754 rounding, `NaN` and `Infinity` are not modelled, and neither is `toFixed` formatting (the profit forecast, the dashboard cards and the table cells).
- String parsing. Rainfall and temperature arrive as `Option<real>`, with `None` for an empty field. A non-numeric non-empty string parses to `NaN` and falls into the ×1.1 rainfall branch; this is not modelled. The marketplace's `parseInt` results are `Option<int>`, with `None` for `NaN`.
- Lower-casing. `toLowerCase` is modelled on ASCII letters only; Unicode case mapping is not.
- Object-key lookups. The tables are looked up as association lists. A key that names a property inherited by every JavaScript object (such as "constructor") would, in the source, return a function instead of falling back; this is not modelled. The `||` fallback also replaces a found value of 0; no table holds a 0, so this never happens.
- Randomness. `Math.random()` in the yield estimate is the parameter `randomFactor`, restricted to [0.9, 1.1).
- Clock reads. `Date.now()` and `new Date().toISOString()` in `handleAddListing` are the parameters `id` and `createdAt`.
- Object identity. The identity of the new object that `UPDATE_ENERGY_DATA` creates is the parameter `freshId`. The reducer itself accepts any value; the consistency lemmas assume it is unused.
- The three seed listings of the marketplace page are a fixture. The page is built from any initial listing sequence.
- EnergyCalculator.DieselFarmFigures: states the figures and the rating of a diesel farm (120 h at 15 kW, 200 kg of fertilizer, 50 l of fuel, 5.5 t/ha), but not its advice list. Evaluating the advice on constant data is beyond the verifier's resource limit.
- Data loading. The simulated market data fetch and its loading state (`fetchMarketData`) are not modelled. The prices are an input.
- Rendering. All JSX rendering, chart scaling and colour pickers are not modelled.
- Browser speech APIs. SpeechRecognition and speechSynthesis (`startListening`, `stopListening`, `speak` and the listening/speaking flags) are not modelled. `HandleVoiceCommand` returns the reply it would speak.
