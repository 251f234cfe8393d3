# Smart Water Plus: a Dafny model of its data rules

Smart Water Plus is a monitoring dashboard for a simulated village water network. Two React views poll a Flask backend. The villager view shows houses, leak predictions and an allocation schedule. The authority view shows houses, predictions and a demand forecast. When any request fails, a view falls back to a locally generated mock frame. Python scripts build the village network, run leak scenarios and report anomalies.

This project models the small sequential rules inside that system and proves what they promise:

- **Views' fetch-or-fallback tick and mock frames** (`villager_view.dfy`, `authority_view.dfy`, `mock_data.dfy`).
  - Each view is a class whose fields are its five pieces of React state.
  - `FetchData` takes the three request outcomes as parameters, and the `Math.random()` draws as a sequence of reals in [0, 1).
  - A ghost log `Rendered` records every state React can render while the tick is suspended at an `await`.
- **Display derivations.**
  - Leak alert list with 1-based house numbers (`leak_alerts.dfy`).
  - Red/yellow/green house status (`house.dfy`).
  - Five zones of ten houses (`network_view.dfy`).
  - Tank clamp and refill warning (`water_tank.dfy`).
  - Allocation table (`schedule_optimizer.dfy`).
  - Forecast chart figures (`demand_forecast.dfy`).
- **Backend handlers** (`backend.dfy`).
  - `/predict` without models, `/forecast`, `/schedule`.
  - A request body is a JSON value. Every exception is a 400 reply.
- **Leak scenario generator** (`generate_leaks.dfy`): the scenario list, leak defaults, node selection, and which scenarios reach the simulator.
- **Village network script** (`village_model.dfy`, `village_names.dfy`): the construction loops, the house pressure columns, the anomaly pass and the summary report lines.

JavaScript `toFixed(d) * 1` is modelled exactly on reals (`Common.ToFixed`). It rounds to the nearest multiple of 10^-d, and a tie rounds half away from zero: `toFixed` writes a negative number as "-" followed by the rounding of its magnitude. Python's `round(x, 2)` is a function parameter `round2`. The only thing assumed about it is that it moves a value by at most 0.005 (`Backend.RoundsToCents`).

Some behaviours of the code are easy to misread; the model states them as the code has them:

- **Updates are published one request at a time.**
  - Each view calls its setters as soon as the matching request answers (`VillagerView.jsx:54,57,60`; `AuthorityView.jsx:58,61,64`).
  - So new sensor readings can be rendered beside old predictions.
  - `FetchData` states these intermediate states in its contract.
- **Late answers are not discarded.** A polling tick that finishes after a newer one still sets the state. The code keeps no tick counter, and the model adds none.
- **The forecast walk is not clamped.**
  - The code clamps only the value it pushes into the forecast (`AuthorityView.jsx:37-38`).
  - The running value it keeps walking from is not clamped.
  - `Authority.RunningValueIsNotClamped` shows a walk where the two differ.
- **Probability bands are half-open.** `Math.random()` lies in [0, 1), so a leaking mock house gets a probability in [0.7, 1.0) and a calm one in [0.0, 0.3).
- **Only house fields are rounded.** The mock generators round the three house fields with `toFixed(2)` and `toFixed(1)`. They leave the tank level and the allocations unrounded.

## Model

| member | source | states |
|---|---|---|
| Common.CountFlagged | frontend/src/components/ui/AuthorityView.jsx:96 | the count of predictions either model flags is at most the list length; it is 0 exactly when none is flagged and the full length exactly when all are |
| Common.SumBounds | frontend/src/components/ui/ScheduleOptimizer.jsx:73 | a left-fold sum of values in [lo, hi] lies between n*lo and n*hi |
| Common.MeanWithin | frontend/src/components/ui/DemandForecast.jsx:73 | the mean of a non-empty list is finite and lies between any lower and upper bound of its elements |
| Common.Mean | frontend/src/components/ui/DemandForecast.jsx:73 | NaN exactly for an empty list; otherwise a finite value that times the length gives back the sum |
| Common.ToFixed | frontend/src/components/ui/VillagerView.jsx:15-17 | `toFixed(d) * 1` lands on the 10^-d grid, at the grid point nearest the input, half away from zero on a tie: scaled by 10^d it lies in (x*10^d - 1/2, x*10^d + 1/2] for x >= 0 and in [x*10^d - 1/2, x*10^d + 1/2) for x < 0 |
| Common.ToFixedSymmetric | frontend/src/components/ui/AuthorityView.jsx:98 | a positive value and its negation round to opposite values |
| Common.NegativeTiesAwayFromZero | frontend/src/components/ui/AuthorityView.jsx:98 | -0.125 to two decimals is -0.13, -2.5 to none is -3, and 0.125 to two decimals is 0.13 |
| Common.ToFixedWithin | frontend/src/components/ui/VillagerView.jsx:15-17 | rounding to d decimals keeps a value inside an interval whose ends lie on the 10^-d grid |
| MockData.MockHouse | frontend/src/components/ui/VillagerView.jsx:14-18 | a mock house built from three draws has pressure in [1, 5], flow in [50, 200] and temperature in [10, 30], after rounding |
| MockData.MockPrediction | frontend/src/components/ui/VillagerView.jsx:22-31 | rf and lr flags are equal; both are set exactly when the leak draw is below 0.08; both probabilities are in [0.7, 1.0) when flagged and in [0.0, 0.3) otherwise |
| MockData.GenerateHouses | frontend/src/components/ui/VillagerView.jsx:12-19 | the push loop yields exactly 50 houses, house i from draws 3i..3i+2, each within the three bands |
| MockData.MockPredictions | frontend/src/components/ui/VillagerView.jsx:21-32 | exactly one prediction per house, in house order, each with equal flags and probabilities in the band its leak draw selects |
| Villager.GenerateMockData | frontend/src/components/ui/VillagerView.jsx:11-41 | the mock frame holds 50 houses, 50 predictions and 50 allocations, index-aligned, with houses and predictions in their bands, allocations in [80, 180) and the tank level in [60, 100) |
| Villager.VillagerView.constructor | frontend/src/components/ui/VillagerView.jsx:44-48 | the initial state is loading, not demo, with no sensor data, predictions or schedule |
| Villager.VillagerView.FetchData | frontend/src/components/ui/VillagerView.jsx:51-74 | if all three requests succeed, the state holds the three replies with loading and demo off; any failure leaves one mock frame with demo on; new sensors are visible beside old predictions while predict is pending; loading is never set back to true |
| Authority.ClampDemand | frontend/src/components/ui/AuthorityView.jsx:38 | the pushed value lies in [80, 200], equals the input inside that band, and is the nearer bound outside it |
| Authority.MockForecastOf | frontend/src/components/ui/AuthorityView.jsx:34-39 | one value per walk step, each within [80, 200] |
| Authority.WalkDrift | frontend/src/components/ui/AuthorityView.jsx:35-37 | after n steps the running value is within 10n of the start value 120 |
| Authority.GenerateForecast | frontend/src/components/ui/AuthorityView.jsx:34-39 | the loop yields 24 values; hour i shows the clamped running value after i+1 steps, always within [80, 200] |
| Authority.RunningValueIsNotClamped | frontend/src/components/ui/AuthorityView.jsx:37-38 | a concrete walk whose running value reaches 208 and then falls to 198: the chart shows 198, where clamping the running value itself would have shown 190 |
| Authority.GenerateMockData | frontend/src/components/ui/AuthorityView.jsx:11-46 | the mock frame has 50 houses with exactly one prediction per house, 24 forecast values in [80, 200], and a tank level in [60, 100) |
| Authority.AuthorityView.constructor | frontend/src/components/ui/AuthorityView.jsx:49-53 | the initial state is loading, not demo, with no sensor data, predictions or forecast |
| Authority.AuthorityView.FetchData | frontend/src/components/ui/AuthorityView.jsx:55-77 | all three succeed: the replies are stored and demo is off; any failure: one mock frame with demo on; the partial states visible between awaits; loading only ever becomes false |
| Authority.TotalLeaks | frontend/src/components/ui/AuthorityView.jsx:96 | 0 without predictions, otherwise at most the number of predictions, and 0 exactly when no prediction is flagged |
| Authority.TankLevel | frontend/src/components/ui/AuthorityView.jsx:97 | the reported level when present and non-zero, otherwise 75; never 0 |
| Authority.Pressures | frontend/src/components/ui/AuthorityView.jsx:98 | the pressure of each house, in order |
| Authority.AvgPressure | frontend/src/components/ui/AuthorityView.jsx:98 | 0 without houses; NaN for an empty house list; otherwise the mean pressure after `toFixed(2)`, within half a cent of the exact mean: above it by at most half a cent, or below by less, for a mean >= 0; the reverse for a negative mean |
| Authority.AvgPressureNegativeTie | frontend/src/components/ui/AuthorityView.jsx:98 | one house at pressure -0.125 shows an average of -0.13 |
| Authority.AvgPressureWithin | frontend/src/components/ui/AuthorityView.jsx:98 | when every pressure lies between two bounds on the cent grid, the displayed average of a non-empty house list is finite and lies between the same bounds |
| Authority.DemoFigures | frontend/src/components/ui/AuthorityView.jsx:96-98 | in demo mode the average pressure is within [1, 5], the tank level within [60, 100) and the leak total at most 50 |
| LeakAlerts.HouseAt | frontend/src/components/ui/LeakAlerts.jsx:14 | the house at an index exists exactly when sensor data with houses covers that index, and it is that house |
| LeakAlerts.AlertsFrom | frontend/src/components/ui/LeakAlerts.jsx:10-16 | every alert is a flagged prediction under its own 1-based position with the house at that position; alerts keep prediction order |
| LeakAlerts.AlertsFromComplete | frontend/src/components/ui/LeakAlerts.jsx:10-13 | every flagged prediction gets an alert under its 1-based position |
| LeakAlerts.AlertsFromCount | frontend/src/components/ui/LeakAlerts.jsx:10-16 | the number of alerts equals the number of flagged predictions |
| LeakAlerts.CountFlaggedCons | frontend/src/components/ui/LeakAlerts.jsx:10-12 | counting flagged predictions from the front agrees with counting from the back |
| LeakAlerts.CountLabel | frontend/src/components/ui/LeakAlerts.jsx:23 | "Leak" exactly for one alert, "Leaks" otherwise |
| LeakAlerts.LeakAlertsPanel | frontend/src/components/ui/LeakAlerts.jsx:5-31 | nothing exactly when predictions are null; the "no leaks" panel exactly when the alert list is empty |
| LeakAlerts.PanelLeaks | frontend/src/components/ui/LeakAlerts.jsx:10-16 | the panel lists exactly as many alerts as there are flagged predictions |
| LeakAlerts.LeakAlertsExact | frontend/src/components/ui/LeakAlerts.jsx:10-16 | the panel lists as many alerts as flagged predictions, and a prediction has an alert under its 1-based position if and only if either model flags it |
| House.LeakProbability | frontend/src/components/ui/House.jsx:8 | 0 without a prediction, otherwise the larger of the two model probabilities |
| House.HasLeak | frontend/src/components/ui/House.jsx:7 | a house leaks exactly when it has a prediction that the leak count would count |
| House.StatusClass | frontend/src/components/ui/House.jsx:11-19 | the dot class carries the status colour and pulses if and only if the status is red |
| House.BorderClass | frontend/src/components/ui/House.jsx:12-19 | the border class carries the status colour |
| House.TextClass | frontend/src/components/ui/House.jsx:78 | the text class carries the status colour |
| House.StatusOf | frontend/src/components/ui/House.jsx:7-20 | red if and only if either flag is 1; yellow if and only if no flag is set and a probability exceeds 0.5; green otherwise, including without a prediction |
| House.ModelVerdict | frontend/src/components/ui/House.jsx:39-40 | "LEAK" if and only if the flag is 1, "OK" otherwise |
| House.IconClass | frontend/src/components/ui/House.jsx:78 | the card icon's colour is the text colour of the status the dot shows, so it follows the same three-way rule |
| House.HalfStaysGreen | frontend/src/components/ui/House.jsx:17 | probabilities of exactly 0.5 without a flag stay green |
| House.ReplaceFirstAbsent | frontend/src/components/ui/House.jsx:77 | replacing a pattern that does not occur leaves the string unchanged |
| House.ReplaceFirst | frontend/src/components/ui/House.jsx:77 | at most one occurrence is replaced: the result keeps the length or changes it by exactly one replacement |
| House.ContainsHasChar | frontend/src/components/ui/House.jsx:77 | a string that contains a pattern contains each of the pattern's characters |
| House.ReplaceAfterPrefix | frontend/src/components/ui/House.jsx:77 | when the pattern's first character is absent from the prefix, the first occurrence replaced is the one after the prefix |
| House.NoPulseWithoutP | frontend/src/components/ui/House.jsx:77 | a class string without the letter p does not contain "leak-pulse" |
| House.RedIconBackground | frontend/src/components/ui/House.jsx:77 | the red class loses "leak-pulse" and keeps "bg-red-500 " |
| House.CalmIconBackground | frontend/src/components/ui/House.jsx:77 | the yellow and green classes contain no "leak-pulse" and pass through unchanged |
| House.CardIconBackgroundDoesNotPulse | frontend/src/components/ui/House.jsx:77 | the icon background never contains "leak-pulse": red becomes "bg-red-500 ", the other classes are unchanged |
| House.MockHouseStatus | frontend/src/components/ui/House.jsx:7-20 | a mock prediction is never yellow, and is red exactly when its leak draw is below 0.08 |
| Network.JsSlice | frontend/src/components/ui/NetworkView.jsx:14 | `slice` cuts bounds past the end: it yields the elements from lo up to hi that exist, in order |
| Network.BuildZones | frontend/src/components/ui/NetworkView.jsx:13-15 | always 5 zones; zone i holds houses 10i up to 10i+9 where they exist, at most 10 each |
| Network.ZonesCoverFirstFifty | frontend/src/components/ui/NetworkView.jsx:13-15 | the zones read in order are exactly the first min(50, n) houses |
| Network.ZonesPrefix | frontend/src/components/ui/NetworkView.jsx:13-15 | the first k zones read in order are the first min(10k, n) houses |
| Network.PredictionFor | frontend/src/components/ui/NetworkView.jsx:47 | the prediction at an index exists exactly when predictions exist and cover that index, and it is that entry |
| Network.RenderNetwork | frontend/src/components/ui/NetworkView.jsx:4-58 | nothing exactly when sensor data or houses are missing; otherwise the zone-by-zone card grid of the houses |
| Network.GridCardsMatchHouses | frontend/src/components/ui/NetworkView.jsx:45-58 | every card shows the house and prediction at index houseId-1; house numbers lie in 1..50 and are distinct |
| Network.GridShowsFirstFifty | frontend/src/components/ui/NetworkView.jsx:46-51 | house k < 50 is shown in zone k/10 at position k%10 with house number k+1 |
| WaterTank.ClampLevel | frontend/src/components/ui/WaterTank.jsx:5 | the level lies in [0, 100], equals the input inside that range, and is the nearer bound outside it |
| WaterTank.GaugeWithinBounds | frontend/src/components/ui/WaterTank.jsx:5-39 | the bar height and the one-decimal label are both computed from the clamped level and lie in [0, 100] |
| WaterTank.WarningIffBelowThirty | frontend/src/components/ui/WaterTank.jsx:43 | the refill warning appears if and only if the level is below 30; exactly 30 shows none |
| WaterTank.DashboardTankWarning | frontend/src/components/ui/AuthorityView.jsx:97 | the tank level the authority view passes never warns in demo mode or when the level is missing |
| Schedule.RowsOf | frontend/src/components/ui/ScheduleOptimizer.jsx:28-51 | one row per allocation in order, numbered idx+1, under-supplied if and only if the allocation is below 100 |
| Schedule.ScheduleTable | frontend/src/components/ui/ScheduleOptimizer.jsx:4-73 | nothing exactly when the schedule or its allocations are missing; otherwise the rows and the sum of all allocations |
| Schedule.TotalWithin | frontend/src/components/ui/ScheduleOptimizer.jsx:73 | the total lies between the row count times the smallest and times the largest allocation |
| Schedule.DemoScheduleTable | frontend/src/components/ui/ScheduleOptimizer.jsx:73 | the villager demo schedule has 50 rows, and its total lies in [4000, 9000] both before and after formatting to 2 decimals |
| DemandChart.MaxOf | frontend/src/components/ui/DemandForecast.jsx:79 | the peak is one of the values and no value exceeds it |
| DemandChart.MinOf | frontend/src/components/ui/DemandForecast.jsx:85 | the minimum is one of the values and no value is below it |
| DemandChart.JsMax | frontend/src/components/ui/DemandForecast.jsx:79 | `Math.max` of nothing is negative infinity, otherwise the finite peak |
| DemandChart.JsMin | frontend/src/components/ui/DemandForecast.jsx:85 | `Math.min` of nothing is positive infinity, otherwise the finite minimum |
| DemandChart.PointsOf | frontend/src/components/ui/DemandForecast.jsx:18-21 | one chart point per value, with hour index i and the value as demand |
| DemandChart.ForecastPanelOf | frontend/src/components/ui/DemandForecast.jsx:6-15 | the loading placeholder exactly when the forecast or its values are missing |
| DemandChart.FiguresOrdered | frontend/src/components/ui/DemandForecast.jsx:31-85 | for a non-empty forecast, the hour count is its length, and the minimum, average and peak are finite with minimum <= average <= peak, the extremes being values of the series |
| DemandChart.EmptyForecastFigures | frontend/src/components/ui/DemandForecast.jsx:73-85 | an empty forecast still renders a chart, with NaN, negative infinity and positive infinity as its figures |
| DemandChart.DemoForecastPanel | frontend/src/components/ui/DemandForecast.jsx:31-85 | the authority demo forecast has 24 points, and every figure lies within [80, 200] |
| Backend.StatusCode | backend/app.py:64-65 | 200 exactly for a successful reply, 400 exactly for an error reply |
| Backend.Get | backend/app.py:98-100 | `data.get` fails on a non-object body; otherwise it gives the field when present and the default when not |
| Backend.ToFloat | backend/app.py:43-45 | `float` succeeds exactly on numbers and booleans, keeping a number's value |
| Backend.Truncate | backend/app.py:73 | `int` of a number drops the fraction toward zero |
| Backend.ToInt | backend/app.py:73 | `int` succeeds exactly on numbers and booleans; a number is truncated toward zero |
| Backend.Features | backend/app.py:43-45 | the three features are read exactly when pressure, flow and temperature all convert |
| Backend.Predict | backend/app.py:40-65 | a reply exactly when the features convert; with models, their answer; without models, flags 0 and the two drawn probabilities |
| Backend.PredictWithoutModels | backend/app.py:53-55 | a complete reading gets an answer without models, and that answer flags no leak |
| Backend.PredictMissingField | backend/app.py:43-65 | a body missing pressure, flow or temperature gets a 400 |
| Backend.ForecastParams | backend/app.py:73-75 | the parameters exist exactly when days, avg_flow and temperature all convert, with their defaults filled in |
| Backend.ForecastDefaults | backend/app.py:73-75 | an empty body takes 7 days, average flow 100 and temperature 25 |
| Backend.RawDemand | backend/app.py:80-81 | before rounding, a day's demand lies in avg_flow + 0.2*temperature, plus or minus 5 |
| Backend.ForecastEntries | backend/app.py:78-82 | max(days, 0) entries; entry i is day i+1 with the rounded demand of its own draw |
| Backend.ForecastOf | backend/app.py:70-89 | the reply succeeds exactly when the parameters convert, and then carries the message and max(days, 0) entries |
| Backend.ForecastDemand | backend/app.py:70-89 | the loop's reply succeeds exactly when the parameters convert, and lists days 1..days, each with its rounded demand |
| Backend.ForecastDaysAndBand | backend/app.py:79-82 | days increase strictly and lie in 1..days; each rounded demand lies within 5.005 of avg_flow + 0.2*temperature |
| Backend.ForecastNoDays | backend/app.py:79 | days below 1 give an empty forecast, not an error |
| Backend.Truthy | backend/app.py:102 | `if forecasted_demand:` fails exactly for null, false, 0, "", [] and {} |
| Backend.Numbers | backend/app.py:103 | `sum` succeeds exactly on a list of numbers and booleans, with booleans counted as 0 or 1 |
| Backend.ProportionalShares | backend/app.py:104-107 | one share per demand entry, in proportion to it: share * total demand == demand * total_water |
| Backend.EqualShares | backend/app.py:109 | max(houses, 0) shares, each round(total_water / houses, 2); `houses <= 0` gives none, so nothing is divided by zero |
| Backend.Schedule | backend/app.py:95-117 | succeeds if and only if total_water and houses convert and a truthy demand is a list of numbers with a non-zero sum; success returns the converted total_water and houses; a truthy demand gives one rounded proportional share per entry; a falsy demand gives equal shares |
| Backend.Scaled | backend/app.py:105 | every element is multiplied by the same factor |
| Backend.SumScaled | backend/app.py:105 | scaling every element scales the sum |
| Backend.ProportionalSharesSum | backend/app.py:102-107 | before rounding, the proportional shares add up to exactly total_water |
| Backend.ScheduleDefaults | backend/app.py:98-109 | an empty body shares 10000 L equally among 10 houses |
| Backend.ScheduleNoHouses | backend/app.py:108-109 | houses below 1 with no demand give an empty allocation and no error |
| Backend.SumConstant | backend/app.py:109 | n copies of a value add up to n times it |
| Backend.EqualSharesSum | backend/app.py:109 | before rounding, `houses` equal shares add up to exactly total_water |
| Backend.ScheduleEqualShares | backend/app.py:98-109 | any non-negative number of houses without demands gets that many equal shares and a 200; houses is never capped |
| Backend.NumberList | backend/app.py:100 | a list of JSON numbers carrying the given demands |
| Backend.ScheduleZeroDemand | backend/app.py:103-117 | demands summing to zero divide by zero, which is a 400 |
| Backend.ScheduleDemandNotList | backend/app.py:103-117 | a truthy demand that is not a list cannot be summed, which is a 400 |
| Backend.NonObjectBody | backend/app.py:42-117 | a body that is not a JSON object gets a 400 from every handler |
| LeakScenarios.OrElse | simulation/generate_leaks.py:71-74 | the value when present, the default otherwise |
| LeakScenarios.ResolveLeak | simulation/generate_leaks.py:71-74 | a missing area becomes the small leak area and a missing coefficient becomes 0.75; start and end times are kept, absent ones staying absent |
| LeakScenarios.PerNodeScenarios | simulation/generate_leaks.py:133-141 | exactly two scenarios per node |
| LeakScenarios.BuildDefaultScenarios | simulation/generate_leaks.py:127-153 | the appending loop yields the default list, with 1 + 2n scenarios plus one when n >= 2 |
| LeakScenarios.PerNodeScenariosAt | simulation/generate_leaks.py:133-141 | node i contributes `{n}_small_morning` then `{n}_big_evening` at places 2i and 2i+1, in node order |
| LeakScenarios.DefaultScenariosShape | simulation/generate_leaks.py:127-153 | "normal" first with no leaks, two scenarios per node in node order, and the two-leak scenario last, present exactly when there are at least two nodes |
| LeakScenarios.DefaultScenariosOf | simulation/generate_leaks.py:127-153 | 1 + 2n scenarios, plus one more when n >= 2, starting with "normal" |
| LeakScenarios.DefaultLeaksResolve | simulation/generate_leaks.py:127-153 | every default leak resolves to coefficient 0.75, the small or the big area, and a window that starts before it ends; the two-leak scenario's missing coefficient resolves like the small morning leak |
| LeakScenarios.SpecIsDefaultLeak | simulation/generate_leaks.py:136-149 | every leak in the default list is a small morning, a big evening, or a small morning leak without a coefficient |
| LeakScenarios.PerNodeLeaks | simulation/generate_leaks.py:136-140 | the per-node scenarios contain only small morning and big evening leaks |
| LeakScenarios.SelectNodes | simulation/generate_leaks.py:178 | an absent or empty `--nodes` list falls back to C1H2, C2H3, C3H5; otherwise the given list; never empty |
| LeakScenarios.DefaultRunScenarios | simulation/generate_leaks.py:178 | a run without `--nodes` builds 8 scenarios, from "normal" to "C1H2_C2H3_two_small" |
| LeakScenarios.LeakNetwork.constructor | simulation/generate_leaks.py:182 | a freshly loaded network has the given nodes and no leaks |
| LeakScenarios.LeakNetwork.AddLeaks | simulation/generate_leaks.py:57-74 | all leaks are added with their defaults resolved, exactly when every junction exists; otherwise the leaks before the first unknown junction stay added |
| LeakScenarios.Simulated | simulation/generate_leaks.py:183-188 | a scenario reaches the simulator exactly when the junctions its leaks name all belong to the network |
| LeakScenarios.RunScenarios | simulation/generate_leaks.py:181-192 | the scenarios handed to the simulator are those whose leaks all name known nodes, in list order |
| LeakScenarios.NormalAlwaysSimulated | simulation/generate_leaks.py:181-190 | "normal" is always simulated first, and every default scenario is simulated when all nodes exist |
| LeakScenarios.SimulatedFirst | simulation/generate_leaks.py:181-190 | a simulated first scenario is the first name handed over |
| LeakScenarios.AllSimulated | simulation/generate_leaks.py:181-190 | when every scenario's leaks name known nodes, all scenarios are handed over |
| LeakScenarios.JunctionsAreNodes | simulation/generate_leaks.py:133-151 | every leak of the default list names one of the input nodes |
| VillageNames.DigitChar | simulation/village_model.py:80-95 | a digit's character is the one at that offset from '0' |
| VillageNames.Decimal | simulation/village_model.py:80-95 | a decimal numeral is a non-empty string of digits, one digit long exactly below 10 |
| VillageNames.DecimalInjective | simulation/village_model.py:80-95 | different numbers have different numerals |
| VillageNames.SplitAtMarker | simulation/village_model.py:95-104 | a separator absent from both prefixes splits a joined name in only one way |
| VillageNames.MarkerNotBefore | simulation/village_model.py:95-104 | the separator does not occur inside a prefix that lacks it |
| VillageNames.NoLetterInDigits | simulation/village_model.py:95-104 | a numeral contains no non-digit character |
| VillageNames.HouseNameInjective | simulation/village_model.py:95 | `C{c}H{h}` names one house only |
| VillageNames.ClusterNameInjective | simulation/village_model.py:80 | `C{c}` names one cluster only |
| VillageNames.ClusterIsNotHouse | simulation/village_model.py:80-95 | no cluster name equals a house name |
| VillageNames.BranchPipeNameInjective | simulation/village_model.py:104 | `P_{c}_{h}` names one branch pipe only |
| VillageNames.TrunkPipeNameInjective | simulation/village_model.py:89 | `P_Tank_{c}` names one trunk pipe only |
| VillageNames.TrunkIsNotBranch | simulation/village_model.py:89-104 | no trunk pipe name equals a branch pipe name |
| Village.ClusterSlots | simulation/village_model.py:94 | the first k construction steps of a cluster, in house order |
| Village.Slots | simulation/village_model.py:79-108 | n clusters of m houses make n*(m+1) construction steps |
| Village.SlotsContent | simulation/village_model.py:79-94 | the construction visits exactly clusters 1..n, each with houses 0..m |
| Village.SlotsOrdered | simulation/village_model.py:79-108 | the construction steps come in strictly increasing (cluster, house) order |
| Village.SlotNamesInjective | simulation/village_model.py:80-104 | different construction steps add junctions with different names and pipes with different names |
| Village.WaterNetwork.constructor | simulation/village_model.py:54 | a new network model has no tanks, junctions or pipes |
| Village.WaterNetwork.AddTank | simulation/village_model.py:57-65 | appends the tank and changes nothing else |
| Village.WaterNetwork.AddJunction | simulation/village_model.py:81-102 | appends the junction and changes nothing else |
| Village.WaterNetwork.AddPipe | simulation/village_model.py:88-108 | appends the pipe and changes nothing else |
| Village.BuildVillage | simulation/village_model.py:57-108 | one tank named Tank; the i-th junction and the i-th pipe are those of the i-th construction step: a cluster with its trunk pipe, or a house with its branch pipe |
| Village.VillageNamesDistinct | simulation/village_model.py:79-108 | every junction name and every pipe name is added once |
| Village.VillageTopology | simulation/village_model.py:88-108 | every house C{c}H{h} exists with the base demand and daily pattern, joined to C{c} by a 50 m pipe; every cluster is joined to the tank by a pipe of length 150+10c |
| Village.VillageJunctionsOnly | simulation/village_model.py:79-108 | every junction built is a cluster in 1..n or one of its houses in 1..m |
| Village.ConfiguredVillageSize | simulation/village_model.py:79-108 | the configured 10 clusters of 5 houses give 60 junctions and 60 pipes |
| Village.ClusterHouseCols | simulation/village_model.py:148-150 | a cluster contributes at most as many columns as it has houses, each of them a pressure column |
| Village.ClusterHouseColsContent | simulation/village_model.py:149-150 | a name is among a cluster's columns exactly when it is a pressure column naming one of its houses |
| Village.HouseColsContent | simulation/village_model.py:148-150 | a name is a house column exactly when it is a pressure column naming a house of clusters 1..n |
| Village.HouseCols | simulation/village_model.py:148-150 | every house column is one of the pressure columns |
| Village.ClusterHouseColsAll | simulation/village_model.py:149-150 | when all of a cluster's houses have pressure columns, its columns are its houses in order |
| Village.HouseIndex | simulation/village_model.py:148-149 | house h of cluster c lies in the block of cluster c in cluster-major order |
| Village.HouseColsAll | simulation/village_model.py:148-150 | when every house has a pressure column, there are n*m house columns |
| Village.HouseColsAllAt | simulation/village_model.py:148-150 | the columns are then cluster-major: house h of cluster c is at (c-1)*m + h-1 |
| Village.FlowAlerts | simulation/village_model.py:157-161 | a time step gives at most one flow alert per cluster |
| Village.PressureAlerts | simulation/village_model.py:165-170 | a time step gives at most one pressure alert per house column |
| Village.FlowAlertsSound | simulation/village_model.py:158-161 | every flow alert carries its time, the High Cluster Flow type and a flow above max(min_flow, ratio*mean) |
| Village.PressureAlertsSound | simulation/village_model.py:166-170 | every pressure alert carries its time, the Low Pressure type and a pressure strictly below the threshold |
| Village.ClusterFlowCheck | simulation/village_model.py:153-161 | the loop over one time's clusters yields exactly that time's flow alerts, in column order |
| Village.LowPressureCheck | simulation/village_model.py:165-170 | the loop over one time's house columns yields exactly that time's pressure alerts, in column order |
| Village.DetectAnomalies | simulation/village_model.py:140-170 | the pass yields, time by time, the flow alerts and then the pressure alerts, with pressure alerts only when a threshold is set and house columns exist |
| Village.FlowAlertIff | simulation/village_model.py:158-161 | a cluster raises a flow alert if and only if its flow exceeds max(min_flow, ratio*mean) |
| Village.PressureAlertIff | simulation/village_model.py:166-170 | a house raises a low pressure alert if and only if its pressure is strictly below the threshold |
| Village.FlowAlertsFull | simulation/village_model.py:158 | as many flow alerts as clusters only when every cluster is over the limit |
| Village.SumAbove | simulation/village_model.py:154 | values all above m sum to more than n*m |
| Village.SomeAtMostMean | simulation/village_model.py:154 | some flow of a non-empty row is at most the row's mean |
| Village.LimitAtLeastMean | simulation/village_model.py:158 | with ratio >= 1 and min_flow >= 0 the limit is never below the mean |
| Village.NotEveryClusterFlagged | simulation/village_model.py:153-161 | with ratio >= 1 and min_flow >= 0, at least one cluster is not flagged at any time |
| Village.NoPressureAlertsWithoutThreshold | simulation/village_model.py:164 | without a threshold or house columns, every alert of a time step is a flow alert |
| Village.StepAlertsSound | simulation/village_model.py:161-170 | a step's alerts carry its time; its flow alerts are typed High Cluster Flow and its pressure alerts Low Pressure |
| Village.AlertsNoLaterThan | simulation/village_model.py:152-170 | with increasing times, no alert of the first n steps is later than step n |
| Village.StepOrdered | simulation/village_model.py:152-170 | within one step every alert carries the step's time, and flow alerts come before pressure alerts |
| Village.TimeOrderedAppend | simulation/village_model.py:152-170 | ordered alerts all before time t, followed by ordered alerts all at t, stay ordered |
| Village.AlertsTimeOrdered | simulation/village_model.py:152-170 | with strictly increasing times the alert list is in time order, with flow alerts before pressure alerts at each time |
| Village.CountKind | simulation/village_model.py:223-224 | the count of one alert type is at most the number of alerts |
| Village.CountKindsPartition | simulation/village_model.py:223-225 | High Cluster Flow count plus Low Pressure count equals the number of alerts |
| Village.ReportShape | simulation/village_model.py:212-230 | the six header lines; then "0 (no alerts)", or the counts line (whose two counts add up to the total), the first min(N, 10) alerts in order, and "... and N-10 more" last exactly when N > 10 |
| Village.AlertLines | simulation/village_model.py:226-227 | one report line per alert, in the alerts' order |
| Village.ReportLines | simulation/village_model.py:212-230 | between 7 and 18 lines, starting with the six header lines |
| Village.SummaryReport | simulation/village_model.py:212-230 | the lines written one after another are exactly the report described by ReportLines |

## Left out

- HTTP is not modelled: axios, the 2000 ms timeouts, Flask routing and CORS. Each request is a delivered-or-failed outcome passed in.
- The 7-second `setInterval` polling is not modelled, nor overlapping ticks, because they are timing and concurrency. `FetchData` models one tick run to completion.
- `Math.random` and `random.uniform` are not modelled as distributions. Their draws are parameters in [0, 1). The statistical 8% leak rate is not modelled.
- Python `round(x, 2)` is an arbitrary function parameter, bounded only by `RoundsToCents` where a lemma needs it. `Backend.RawDemand` and `Backend.ProportionalSharesSum` state their bands and sums before rounding.
- Backend.ToFloat: a JSON string is treated as raising, though Python's `float("3.5")` would succeed. Numeric strings in request bodies are not modelled.
- Backend.ToInt: a JSON string is treated as raising, though Python's `int("7")` would succeed. Float overflow and infinities are not modelled.
- The sklearn models' predictions are an arbitrary function parameter. Model loading and the `/simulate-data` and `/` routes are not modelled.
- The wntr/EPANET simulation, pandas DataFrames, CSV, PNG and report file writing, plots and logging are not modelled. The anomaly pass takes the simulated times, flows and pressures as input.
- NaN readings are not modelled, and neither is pandas' NaN-skipping mean.
- Node coordinates, elevations, roughness, tank levels and diameter, and the 24-value demand pattern are not modelled. `load_model` and `generate_sample_inp` are not part of this model.
- `LeakScenarios.RunScenarios` records the scenarios handed to the simulator, not whether `run_sim_and_save` then succeeds.
- The report's number formatting (`{val:.5f}`, the ratio text) is not modelled. Report lines are values.
- The string formatting of `toFixed` is not modelled. Only its numeric value `toFixed(d) * 1` is, as used in the mock frame, the tank label, the schedule total and the average pressure. `Authority.AvgPressure` shows a string, or the number 0 without houses; the model keeps the value of either.
- DemandChart.ForecastPanelOf: the average, peak and minimum it shows with `toFixed(2)` (DemandForecast.jsx:73, 79, 85) are kept unrounded, and `DemandChart.FiguresOrdered` is about those unrounded values.
- Schedule.RowsOf: each row's allocation, shown with `toFixed(2)` (ScheduleOptimizer.jsx:40), is kept unrounded. The under-supply flag compares the unrounded value, as the code does.
- JSX markup, tooltips, recharts, icons and CSS classes are not modelled, except the status, border and icon choices. `Dashboard.jsx` and `App.js` are not part of this model.
- `backend/utils/preprocess.py` and `backend/scripts/train_leak_model.py` are not part of this model.
- No link between backend and frontend payloads is modelled: the backend's field names and shapes differ from those the views read.

