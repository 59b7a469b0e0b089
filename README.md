# RouteRaison backend core in Dafny

RouteRaison answers the question "how should this trip be driven?". It works in four steps:

1. It gathers context for a trip into a list of **scenario tags**: the weather at the origin, day or night, the trip length, the user's own flags, and traffic incidents near the origin.
2. It maps those tags onto the **elements** of an external decision engine.
3. It reads the engine's chosen **solutions** (route strategies).
4. It compiles the solutions into one **routing request**: an objective (`fastest` or `shortest`), the features to avoid (`highways`, `tollways`), and the first nearby fuel station as a waypoint when a refuel is planned.

This project models that pipeline and proves its properties:

- the backend's two endpoints, `/context` and `/plan`;
- the decision-engine client, which validates labels against its tables, builds the payload and parses the reply;
- the parts of the weather, traffic-incident and fuel-station clients that classify and shape their replies;
- the front end's duration formatter.

Modules follow the source files:

| module | file | models |
|---|---|---|
| `Common` | `common.dfy` | `Option`, `Result` |
| `Strings` | `strings.dfy` | Python's `strip`, `lower`, `in` and string order, on ASCII |
| `Seqs` | `seqs.dfy` | de-duplication that keeps first occurrences; `sorted(set(...))` |
| `AiRaison` | `ai_raison.dfy` | `backend/app/services/ai_raison.py` |
| `Weather` | `weather.dfy` | `backend/app/services/weather.py` |
| `Traffic` | `traffic.dfy` | `backend/app/services/traffic_tomtom.py` |
| `FuelStations` | `fuel_stations.dfy` | `backend/app/services/poi_fuel.py` |
| `Backend` | `backend.dfy` | `backend/app/main.py` |
| `Format` | `format.dfy` | `formatDuration` of `frontend/src/utils/format.ts` |

Anything outside the program becomes an input:

- The clock becomes an `Hour`.
- The great-circle distance becomes a `real`.
- The replies of the weather and traffic services become `Signals`. There, `Err` carries the text of an exception the call raised.
- The decision engine, the Overpass endpoints and the routing service become functions in `Services`. Each gives the outcome of one request.
- Thresholds read from the environment become a `Config`, and `DefaultConfig` holds the default values.

Each handler is a method (`BuildScenarios`, `Plan`). Each is proved equal to a specification function (`ContextFor`, `PlanFor`). The lemmas state what the source promises about those functions.

## Model

| member | source | states |
|---|---|---|
| Strings.Strip | backend/app/services/ai_raison.py:115 | the result is the input with its leading and trailing whitespace dropped: a contiguous slice, followed only by whitespace, with no whitespace at either end |
| Strings.Lower | backend/app/services/weather.py:42 | same length; every character is lower-cased on its own |
| Seqs.Distinct | backend/app/main.py:268-273 | no repeats; exactly the members of the input |
| Seqs.RemoveDuplicates | backend/app/main.py:268-273 | the `seen`/`out` loop computes `Distinct` |
| Seqs.DistinctOfNoDup | backend/app/services/traffic_tomtom.py:79-84 | de-duplicating a list that has no repeats returns it unchanged |
| Seqs.DistinctKeepsFirstSeenOrder | backend/app/main.py:268-273 | the kept elements follow the order of their first occurrences in the input |
| Seqs.DistinctPrefix | backend/app/main.py:268-273 | de-duplicating a longer list extends the de-duplicated prefix |
| Seqs.SortedUnique | backend/app/main.py:93 | `sorted(set(xs))`: strictly sorted by Python string order, no repeats, exactly the members of `xs` |
| Seqs.SortedUniqueBySet | backend/app/main.py:93 | two sorted lists with the same members are equal, so `sorted(set(..))` depends only on the set |
| AiRaison.ElementIdsInjective | backend/app/services/ai_raison.py:9-19 | no two element labels share an identifier |
| AiRaison.OptionIdsInjective | backend/app/services/ai_raison.py:22-29 | no two option labels share an identifier |
| AiRaison.IdsDisjoint | backend/app/services/ai_raison.py:9-29 | no identifier is both an element and an option |
| AiRaison.OptionLabelsAreTheKeys | backend/app/services/ai_raison.py:57-59 | the default option list holds exactly the option table's keys, without repeats |
| AiRaison.FirstUnknown | backend/app/services/ai_raison.py:63-65 | every label before the returned index is a table key, and the label at the index is not |
| AiRaison.BuildPayload | backend/app/services/ai_raison.py:52-82 | the result equals `PayloadFor` under the engine's two tables |
| AiRaison.BuildPayloadWith | backend/app/services/ai_raison.py:61-82 | the first unknown element label raises `Unknown ai-raison element label: <lab>`; otherwise the first unknown option label raises the option message. Success holds exactly when every label is known, with one entry per label, in order, carrying the table identifier |
| AiRaison.LabelErrorWith | backend/app/services/ai_raison.py:63-76 | there is no error exactly when every element label and every option label is in its table |
| AiRaison.Entries | backend/app/services/ai_raison.py:66-80 | one entry per label, in order, named by the label and carrying its identifier |
| AiRaison.EntriesUnique | backend/app/services/ai_raison.py:62-80 | the labels and the table determine the entry list |
| AiRaison.PayloadWithAgrees | backend/app/services/ai_raison.py:52-82 | any result meeting the validation contract is the payload function's result |
| AiRaison.DefaultOptions | backend/app/services/ai_raison.py:57-59 | without option labels, the payload offers all six options in table order, each with its identifier |
| AiRaison.SolutionLabels | backend/app/services/ai_raison.py:113-117 | no collected label is empty |
| AiRaison.CollectSolutions | backend/app/services/ai_raison.py:113-118 | the loop collects the qualifying labels in reply order and the explanation map |
| AiRaison.ParseDecision | backend/app/services/ai_raison.py:107-130 | a reply that is not a list is an error naming its type; a list gives the distinct qualifying labels (or `route_fast`), the explanations and the raw items |
| AiRaison.SolutionLabelsMembers | backend/app/services/ai_raison.py:113-117 | a label is collected exactly when some item has `isSolution` true and that non-empty stripped label |
| AiRaison.SolutionWitness | backend/app/services/ai_raison.py:113-117 | each collected label has an item that produced it |
| AiRaison.SolutionOfQualifying | backend/app/services/ai_raison.py:113-117 | each qualifying item's label is collected |
| AiRaison.ExplanationKeys | backend/app/services/ai_raison.py:113-118 | the explanation keys are exactly the collected labels |
| AiRaison.ExplanationOfLastOccurrence | backend/app/services/ai_raison.py:118 | a label's explanation comes from the last qualifying item with that label, `[]` when that item has none |
| AiRaison.ChosenSolutionsShape | backend/app/services/ai_raison.py:120-128 | the solutions are never empty and have no repeats. They are the distinct collected labels in first-seen order, or just `route_fast` when none was collected |
| AiRaison.FallbackHasNoExplanation | backend/app/services/ai_raison.py:127-128 | when no item qualifies, `route_fast` is chosen and the explanation map is empty |
| AiRaison.Decide | backend/app/services/ai_raison.py:84-130 | the result equals `DecisionOf`: validate the payload, send it, parse the reply |
| AiRaison.UnknownLabelBeforeRequest | backend/app/services/ai_raison.py:100 | an unknown label fails with its label error whatever the engine would answer |
| AiRaison.DecisionSucceeds | backend/app/services/ai_raison.py:100-130 | `decide` succeeds exactly when every label is known and the engine replies with a list. Its solutions are then never empty, have no repeats, and come with the reply's explanations |
| Weather.GetScenarios | backend/app/services/weather.py:36-52 | the reported condition is the stripped `main` of the first entry; each of the four tags is present exactly when one of its keywords occurs in the lower-cased condition |
| Weather.TagsByKeyword | backend/app/services/weather.py:42-50 | each tag is present exactly when its keyword occurs in the lower-cased condition (`rain`/`drizzle`, `snow`, `fog`/`mist`/`haze`, `thunderstorm`) |
| Weather.AppendTagsMembers | backend/app/services/weather.py:43-50 | each tag is appended exactly when its condition holds |
| Weather.AppendTagsOrdered | backend/app/services/weather.py:43-50 | the tags come in the order rain, snow, fog, storm |
| Weather.TagsInCanonicalOrder | backend/app/services/weather.py:43-50 | the tags are weather tags, without repeats, in canonical order |
| Weather.WeatherTagsShape | backend/app/services/weather.py:36-52 | for any reply, the tags are weather tags, without repeats, in canonical order |
| Weather.NoWeatherListNoTags | backend/app/services/weather.py:38-42 | a missing, non-list or empty `weather` gives no tags and no condition |
| Weather.OnlyFirstEntryCounts | backend/app/services/weather.py:39-40 | only the first entry is read, and its stripped `main` is reported |
| Traffic.IncidentTags | backend/app/services/traffic_tomtom.py:60-84 | at most the two traffic tags, without repeats: `traffic_heavy` exactly when there is an incident, `road_closure` exactly when some event mentions a closure |
| Traffic.FetchTags | backend/app/services/traffic_tomtom.py:47-84 | a failed fetch contributes no tags; a reply contributes `traffic_heavy` exactly when it has incidents and `road_closure` exactly when one mentions a closure |
| Traffic.ScanEvents | backend/app/services/traffic_tomtom.py:71-75 | the inner loop finds a closure exactly when some event's description mentions one |
| Traffic.ScanIncidents | backend/app/services/traffic_tomtom.py:68-77 | the outer loop finds a closure exactly when some incident has such an event |
| Traffic.IncidentsBbox | backend/app/services/traffic_tomtom.py:47-91 | a failed fetch gives no tags, the error and the endpoint. A reply gives the classified tags, de-duplicated, with no error |
| Traffic.NoIncidentsNoTags | backend/app/services/traffic_tomtom.py:61-63 | a missing or empty `incidents` gives no tags |
| Traffic.IncidentTagsShape | backend/app/services/traffic_tomtom.py:60-84 | at most the two traffic tags, without repeats, `traffic_heavy` first and exactly when there is an incident. A closure always comes with heavy traffic |
| Traffic.RoadClosureIff | backend/app/services/traffic_tomtom.py:72-74 | `road_closure` is reported exactly when some lower-cased description contains `closed` or `closure` |
| Traffic.RoadClosedMentionsClosed | backend/app/services/traffic_tomtom.py:73 | the `road closed` keyword is subsumed by `closed` |
| Traffic.FailureShape | backend/app/services/traffic_tomtom.py:52-58 | a failed request contributes no tags |
| FuelStations.Prefix | backend/app/services/poi_fuel.py:64 | Python's `s[:limit]`: a prefix of `s`, and a negative limit counts from the end |
| FuelStations.Parse | backend/app/services/poi_fuel.py:52-64 | the loop keeps only elements with coordinates, in order, then applies the limit |
| FuelStations.ParseBound | backend/app/services/poi_fuel.py:64 | with a non-negative limit, at most `limit` stations come back |
| FuelStations.StationsFromElements | backend/app/services/poi_fuel.py:54-62 | each station comes from an element with coordinates and carries that element's name and position |
| FuelStations.SkippedElement | backend/app/services/poi_fuel.py:57-58 | an element without coordinates contributes nothing |
| FuelStations.KeptElement | backend/app/services/poi_fuel.py:60-62 | an element with coordinates adds its station at the end |
| FuelStations.CoordinatePriority | backend/app/services/poi_fuel.py:55-61 | a truthy direct coordinate wins; a missing or zero one falls back to `center`; a missing or empty name becomes `Fuel station` |
| FuelStations.Endpoints | backend/app/services/poi_fuel.py:78-81 | four endpoints with a non-empty custom URL, else three |
| FuelStations.EndpointOrder | backend/app/services/poi_fuel.py:78-81 | a non-empty custom URL comes first, then always the three public endpoints in their order |
| FuelStations.OutcomesAt | backend/app/services/poi_fuel.py:85-90 | one outcome per endpoint, each what that endpoint answers |
| FuelStations.FirstAnswer | backend/app/services/poi_fuel.py:85-103 | every endpoint before the returned index failed, and the one at the index answered |
| FuelStations.TryEndpoints | backend/app/services/poi_fuel.py:83-103 | the loop stops at the first endpoint that answers. When all fail, it keeps the last error |
| FuelStations.FindNearby | backend/app/services/poi_fuel.py:66-106 | the first endpoint that answers decides: its parsed stations, with a debug record naming it and the count. When all fail: no stations, `ok` false, the last error, count 0 |
| Format.WholeSeconds | frontend/src/utils/format.ts:7 | `Math.max(0, Math.floor(seconds))`: zero for negative input, otherwise the largest whole number not above the input |
| Format.DurationParts | frontend/src/utils/format.ts:7-9 | minutes below 60; hours and minutes cover the whole seconds to within one minute; under a minute is `(0, 0)` |
| Format.Decimal | frontend/src/utils/format.ts:10-11 | a non-empty string of decimal digits that starts with `0` only for zero, so there are no leading zeros |
| Format.DecimalRoundTrip | frontend/src/utils/format.ts:10-11 | reading the printed numeral back gives the number |
| Format.Render | frontend/src/utils/format.ts:10-11 | the text shows an `h` exactly when there is at least one hour |
| Format.FormatDuration | frontend/src/utils/format.ts:6-12 | the text always ends in `min` and shows an `h` exactly when the whole seconds reach an hour |
| Format.NonPositiveIsZeroMinutes | frontend/src/utils/format.ts:7-11 | zero or negative seconds read `0min` |
| Format.ShowsHours | frontend/src/utils/format.ts:10-11 | the character after the leading numeral is `h` exactly when there is at least one hour |
| Format.RenderInjective | frontend/src/utils/format.ts:10-11 | different hour/minute pairs never render alike |
| Format.DurationTextDeterminesParts | frontend/src/utils/format.ts:6-12 | equal text means the same hours and minutes |
| Backend.IsNight | backend/app/main.py:71-73 | night is exactly the hours outside 06:00 to 20:59 |
| Backend.TimeTag | backend/app/main.py:196-199 | the tag is `night` or `day`, `day` exactly for the hours 6 to 20 |
| Backend.TrafficBox | backend/app/main.py:245-250 | a square of side twice the margin, centred on the origin |
| Backend.BuildScenarios | backend/app/main.py:182-275 | the context equals `ContextFor`: the tags in append order with repeats dropped, plus the debug record |
| Backend.Append | backend/app/main.py:218-219 | a conditional append adds the tag exactly when the condition holds |
| Backend.WeatherAndTime | backend/app/main.py:186-207 | the weather tags, the time of day and the good-weather steps, plus the weather debug entry |
| Backend.TrafficLookup | backend/app/main.py:243-265 | the traffic tags only when the user reported neither a closure nor heavy traffic, plus the traffic debug entry (skipped, failed, or seen with its box) |
| Backend.WeatherPartShape | backend/app/main.py:187-193 | the weather contribution is weather tags without repeats |
| Backend.TrafficPartShape | backend/app/main.py:243-263 | the traffic contribution is only `traffic_heavy` and `road_closure` |
| Backend.BadWeatherIffReported | backend/app/main.py:201-203 | the heuristic sees bad weather exactly when the weather lookup reported a weather tag |
| Backend.WeatherStageMembership | backend/app/main.py:186-207 | membership after the weather steps: the weather tags, the time tag, and `good_weather` under its two rules |
| Backend.UserFlagMembership | backend/app/main.py:217-227 | each of the first five flags appends its tag, and only then |
| Backend.FlagMembership | backend/app/main.py:217-237 | each request flag appends its own tag, and only then |
| Backend.RawMembership | backend/app/main.py:182-265 | membership in the raw list, stage by stage |
| Backend.ScenarioMembership | backend/app/main.py:182-275 | membership in the answer is decided by the stage summary, which has the shape each stage can produce |
| Backend.DayOrNight | backend/app/main.py:195-199 | exactly one of `night` and `day` is present: `night` when the hour is 21 or later, or before 6 |
| Backend.GoodWeatherRule | backend/app/main.py:201-207 | `good_weather` is present exactly when the weather lookup reported no weather tag (or raised), or the request forces it |
| Backend.WeatherTagsReported | backend/app/main.py:186-193 | the weather tags in the answer are exactly those the lookup reported |
| Backend.GoodWeatherExcludesBadWeather | backend/app/main.py:201-207 | unless the request forces it, `good_weather` appears exactly when no bad-weather tag does |
| Backend.TripLengthRule | backend/app/main.py:209-241 | `long_trip` exactly at or above the long threshold. `short_city_trip` at or below the city threshold, or when the request forces it |
| Backend.UserFlagRule | backend/app/main.py:217-225 | `urgent`, `budget_tight`, `kids_onboard` and `fatigue` each appear exactly when their flag is set |
| Backend.TripFlagRule | backend/app/main.py:226-233 | `leisure_trip`, `fuel_low` and `fuel_critical` each appear exactly when their flag is set |
| Backend.TrafficTagRule | backend/app/main.py:234-265 | `road_closure` and `traffic_heavy` each come from their flag or, only when neither flag is set, from a traffic reply |
| Backend.ScenarioVocabularyOnly | backend/app/main.py:182-275 | every tag is from the fixed vocabulary and none appears twice |
| Backend.WeatherThenTimeFirst | backend/app/main.py:186-199 | the answer starts with the weather tags in the lookup's order, then the time of day |
| Backend.CloseScenarios | backend/app/main.py:294-297 | extends the list; adds `fuel_low` for `fuel_critical` and `traffic_heavy` for `road_closure` and nothing else; keeps it free of repeats |
| Backend.CloseScenariosIdempotent | backend/app/main.py:294-297 | closing twice is closing once |
| Backend.Close | backend/app/main.py:294-297 | the two in-place appends compute `CloseScenarios` |
| Backend.ApplyImplications | backend/app/main.py:87-93 | the result is sorted and free of repeats. It holds exactly the input plus the two implied labels |
| Backend.ApplyImplicationsIdempotent | backend/app/main.py:87-93 | applying the implications twice is applying them once |
| Backend.ApplyImplicationsBySet | backend/app/main.py:87-93 | only the set of labels matters, not their order or repeats |
| Backend.Present | backend/app/main.py:106-116 | the flags kept are exactly those present in the scenarios |
| Backend.AppendPresent | backend/app/main.py:106-116 | the loop appends the present flags in the fixed order |
| Backend.BuildElements | backend/app/main.py:96-122 | the element list equals `ElementsFor` |
| Backend.ElementMembership | backend/app/main.py:96-122 | an element is `route_asked`, a present flag, the composite, or an implied label |
| Backend.ElementsShape | backend/app/main.py:96-122 | `route_asked` is always present; the list is sorted and free of repeats; every label is in the element table, so building the payload never rejects it |
| Backend.ElementImplicationRule | backend/app/main.py:89-92 | `fuel_low` appears for `fuel_low` or `fuel_critical`, and `traffic_heavy` for `traffic_heavy` or `road_closure` |
| Backend.ElementFlagRule | backend/app/main.py:106-116 | the other five flags are passed on exactly when present |
| Backend.CompositeElementRule | backend/app/main.py:119-120 | the composite element needs both `leisure_trip` and `good_weather` |
| Backend.ElementsOnlyFromFlags | backend/app/main.py:96-122 | no other tag produces an element |
| Backend.ElementsIgnoreOtherScenarios | backend/app/main.py:100-122 | scenario lists that agree on the nine input tags give the same elements |
| Backend.ClosureInvisibleToElements | backend/app/main.py:294-309 | the handler's own closure step does not change the element list |
| Backend.ExtractSolutions | backend/app/main.py:125-147 | the result equals `SolutionsOf`: a reply that is not a list gives `route_fast`; a list gives the distinct qualifying labels with their explanations |
| Backend.ExtractionShape | backend/app/main.py:125-147 | the solutions are never empty and have no repeats. The explanation keys are the qualifying labels. The fallback is `route_fast` with no explanations |
| Backend.CompilePlan | backend/app/main.py:150-179 | refuel exactly for `route_refuel`. The avoid list is sorted, has no repeats, and holds `highways` exactly for detour or scenic and `tollways` exactly for toll-free. The preference is `shortest` exactly for short or scenic without fast, else `fastest` |
| Backend.CompilePlanIgnoresOtherLabels | backend/app/main.py:157-178 | only the six option labels matter: other labels, repeats and order change nothing |
| Backend.Plan | backend/app/main.py:288-368 | the `/plan` handler computes `PlanFor` |
| Backend.Choose | backend/app/main.py:301-314 | the decision step computes `ChoiceFor` |
| Backend.RefuelStop | backend/app/main.py:321-341 | the station used and the routing request are those `StationFor` and `RouteRequestFor` give |
| Backend.ChoiceErrorStatus | backend/app/main.py:308-314 | the decision step fails only with a 502 whose detail starts `ai-raison error: ` |
| Backend.PlanErrorStatus | backend/app/main.py:313-351 | every failure is a 502 whose detail names the engine or the routing service |
| Backend.DecisionFailsOnlyInEngine | backend/app/main.py:307-314 | without a forced option, the payload is always accepted. The decision step fails exactly when the engine does not answer with a list |
| Backend.ForcedPlan | backend/app/main.py:302-306 | a forced option does not consult the engine. It is the only solution, `forced_option` is the only element, and there are no explanations |
| Backend.ReExtractionAgrees | backend/app/main.py:310-312 | extracting again from the raw reply gives back the solutions and explanations `decide` returned |
| Backend.EngineChoice | backend/app/main.py:307-314 | without a forced option, the decision step returns the engine's distinct, non-empty solutions for the scenarios' elements |
| Backend.PlanCarriesChoice | backend/app/main.py:361-368 | the answer carries the closed scenarios and the decision step's solutions, explanations, elements and raw reply |
| Backend.EnginePlan | backend/app/main.py:307-368 | without a forced option, the answer carries the engine's solutions for the elements of the closed scenarios |
| Backend.PlanScenariosShape | backend/app/main.py:291-297 | the answer's scenarios extend those of `/context`, stay free of repeats and satisfy both implications |
| Backend.PlanRoute | backend/app/main.py:319-359 | the debug plan is compiled from the chosen solutions, and the station is the one that plan leads to. A station is used only when `route_refuel` was chosen |
| Backend.WaypointRule | backend/app/main.py:322-336 | origin first and destination last, as (lon, lat). The first station found goes between them exactly when a refuel is planned and a station was found. The preference and avoid list are passed through |

## Left out

- HTTP, `async`, JSON decoding and the services themselves are not modelled. Each service is an input: a reply, or the text of the exception it raised. `raise_for_status` and transport errors count as such exceptions.
- Environment variables and API keys are not modelled. That covers the constructor checks for missing keys, the `AI_RAISON_PROJECT_ID` check in `decide`, the request URL and headers, and `float()` parsing of the thresholds and the box margin. The thresholds are a `Config` input.
- `haversine_km` and the floating-point distance are not modelled, and `datetime.now()` is not modelled. The distance and the hour are inputs.
- Floating point is modelled as `real`. Pydantic's range checks on latitude and longitude are not modelled.
- `backend/app/services/routing_ors.py` is not part of this model. The routing service is a function from the request (waypoints, preference, avoid list) to a route or an error.
- `_build_query` (radius, limit, origin, query timeout) is not modelled. The Overpass service is a function from an endpoint to its outcome.
- Only the exceptions `find_nearby` catches are modelled as endpoint failures. Any other exception is not modelled.
- `FuelStations.FindNearby`: the precondition that there is one outcome per endpoint exists only because outcomes are inputs. It holds for every use that builds them with `OutcomesAt`.
- `print`, the `/health` endpoint and the `ContextResponse`/`PlanResponse` serialisation are not modelled. The debug records are modelled with their contents, but not the key order of the debug and explanation dictionaries.
- `raw` payloads are not modelled, except the engine's item list, which `ai_raison_raw` carries.
- Malformed JSON values, such as an item that is not an object or a label that is not a string, are not modelled. The model keeps only the value shapes the code handles: missing, null, a list or not a list.
- Strings are ASCII: `strip`, `lower` and `isspace` beyond ASCII are not modelled.
- `formatKm` is not modelled, and JavaScript number formatting is modelled only for the non-negative integers `formatDuration` prints.
- `traffic_tomtom.py` has no delay-magnitude filter: any incident means `traffic_heavy`.
- `decide` and `extract_solutions_and_explanations` overwrite a label's explanation on each later qualifying item. `ExplanationOfLastOccurrence` states this, and the solution order stays first-seen.
- `compile_ors_plan` produces only `fastest` or `shortest`. Unknown solution labels are ignored, and a forced option is not validated.
