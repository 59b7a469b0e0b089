/**
 * The backend's two endpoints. `/context` turns a trip request and what the
 * weather and traffic lookups report into scenario tags; `/plan` turns those
 * tags into the decision engine's elements, the engine's chosen solutions into
 * a routing plan, and the plan into one routing request.
 */
module Backend {
  import opened Common
  import opened Seqs
  import AiRaison
  import Weather
  import Traffic
  import FuelStations

  // ---------------------------------------------------------------- inputs

  type Hour = h: int | 0 <= h < 24

  /** Night runs from 21:00 up to, but not including, 06:00. */
  predicate IsNight(hour: Hour)
    ensures IsNight(hour) <==> !(6 <= hour < 21)
  {
    hour >= 21 || hour < 6
  }

  datatype Point = Point(lat: real, lon: real)

  /** The request body shared by both endpoints; flags default to false, the last three to unset. */
  datatype PlanRequest = PlanRequest(
    origin: Point,
    destination: Point,
    urgent: bool,
    budgetTight: bool,
    kidsOnboard: bool,
    fatigue: bool,
    leisureTrip: bool,
    fuelLow: bool,
    fuelCritical: bool,
    roadClosure: bool,
    trafficHeavy: bool,
    goodWeather: Option<bool>,
    shortCityTrip: Option<bool>,
    forcedOption: Option<string>)

  /**
   * What the environment contributes to one request: the local hour, the
   * great-circle distance between origin and destination, and the reply of
   * each lookup (`Err` carries the text of the exception it raised).
   */
  datatype Signals = Signals(
    hour: Hour,
    distanceKm: real,
    weather: Result<Weather.WeatherData, string>,
    traffic: Result<Traffic.TrafficFetch, string>)

  /** The thresholds read from the environment. */
  datatype Config = Config(longTripKm: real, cityTripKm: real, bboxMarginDeg: real)

  /** The values used when the environment sets none. */
  const DefaultConfig := Config(60.0, 10.0, 0.02)

  datatype Bbox = Bbox(minLat: real, minLon: real, maxLat: real, maxLon: real)

  /** The traffic search box: a square of half-width `margin` degrees centred on the origin. */
  function TrafficBox(origin: Point, margin: real): (b: Bbox)
    ensures b.maxLat - b.minLat == 2.0 * margin && b.maxLon - b.minLon == 2.0 * margin
    ensures (b.minLat + b.maxLat) / 2.0 == origin.lat && (b.minLon + b.maxLon) / 2.0 == origin.lon
  {
    Bbox(origin.lat - margin, origin.lon - margin, origin.lat + margin, origin.lon + margin)
  }

  // ---------------------------------------------------------------- /context

  datatype WeatherDebug = WeatherSeen(main: Option<string>, scenarios: seq<string>) | WeatherFailed(exception: string)

  datatype TrafficDebug =
    | TrafficSkipped
    | TrafficFailed(exception: string)
    | TrafficSeen(bbox: Bbox, scenarios: seq<string>, error: Option<string>, endpoint: string)

  datatype ContextDebug = ContextDebug(weather: WeatherDebug, approxDistanceKm: real, traffic: TrafficDebug)

  datatype Context = Context(scenarios: seq<string>, debug: ContextDebug)

  /** The tags the weather lookup contributes: none when it raised. */
  function WeatherPart(sig: Signals): seq<string> {
    if sig.weather.Ok? then Weather.GetScenarios(sig.weather.value).scenarios else []
  }

  function TimeTag(hour: Hour): (tag: string)
    ensures tag == "night" || tag == "day"
    ensures tag == "day" <==> 6 <= hour < 21
  {
    if IsNight(hour) then "night" else "day"
  }

  predicate HasBadWeather(s: seq<string>) {
    "rain" in s || "snow" in s || "fog" in s || "storm" in s
  }

  /** What `if on: scenarios.append(tag)` appends. */
  function When(on: bool, tag: string): seq<string> {
    if on then [tag] else []
  }

  /** The trip-length appends. */
  function TripTags(s: seq<string>, km: real, cfg: Config): seq<string> {
    s + When(km >= cfg.longTripKm, "long_trip") + When(km <= cfg.cityTripKm, "short_city_trip")
  }

  /** The appends of the nine request flags, in order. */
  function FlagTags(s: seq<string>, req: PlanRequest): seq<string> {
    TripFlags(ExtraFlags(UserFlags(s, req), req), req)
  }

  function UserFlags(s: seq<string>, req: PlanRequest): seq<string> {
    s + When(req.urgent, "urgent") + When(req.budgetTight, "budget_tight") +
    When(req.kidsOnboard, "kids_onboard") + When(req.fatigue, "fatigue") + When(req.leisureTrip, "leisure_trip")
  }

  function ExtraFlags(s: seq<string>, req: PlanRequest): seq<string> {
    s + When(req.fuelLow, "fuel_low") + When(req.fuelCritical, "fuel_critical")
  }

  function TripFlags(s: seq<string>, req: PlanRequest): seq<string> {
    s + When(req.roadClosure, "road_closure") + When(req.trafficHeavy, "traffic_heavy")
  }

  /** The traffic lookup runs only when the user has reported neither a closure nor heavy traffic. */
  predicate TrafficQueried(req: PlanRequest) {
    !req.roadClosure && !req.trafficHeavy
  }

  function TrafficPart(req: PlanRequest, sig: Signals): seq<string> {
    if TrafficQueried(req) && sig.traffic.Ok? then Traffic.FetchTags(sig.traffic.value) else []
  }

  /** The weather tags, the time of day and the good-weather heuristic with its override. */
  function WeatherStage(req: PlanRequest, sig: Signals): seq<string> {
    var s1 := WeatherPart(sig) + [TimeTag(sig.hour)];
    var s2 := s1 + When(!HasBadWeather(s1), "good_weather");
    s2 + When(req.goodWeather == Some(true) && "good_weather" !in s2, "good_weather")
  }

  /** The tags in the order `build_scenarios` appends them, repeats included. */
  function RawScenarios(req: PlanRequest, sig: Signals, cfg: Config): seq<string> {
    var s4 := FlagTags(TripTags(WeatherStage(req, sig), sig.distanceKm, cfg), req);
    var s5 := s4 + When(req.shortCityTrip == Some(true) && "short_city_trip" !in s4, "short_city_trip");
    s5 + TrafficPart(req, sig)
  }

  /** The scenarios `/context` answers with. */
  function ScenariosFor(req: PlanRequest, sig: Signals, cfg: Config): seq<string> {
    Distinct(RawScenarios(req, sig, cfg))
  }

  function WeatherDebugFor(sig: Signals): WeatherDebug {
    match sig.weather
    case Ok(data) =>
      var w := Weather.GetScenarios(data);
      WeatherSeen(w.rawMain, w.scenarios)
    case Err(e) => WeatherFailed(e)
  }

  function TrafficDebugFor(req: PlanRequest, sig: Signals, cfg: Config): TrafficDebug {
    if !TrafficQueried(req) then TrafficSkipped
    else
      match sig.traffic
      case Err(e) => TrafficFailed(e)
      case Ok(f) =>
        TrafficSeen(TrafficBox(req.origin, cfg.bboxMarginDeg), Traffic.FetchTags(f),
                    if f.FetchFailed? then Some(f.error) else None, f.endpoint)
  }

  function ContextFor(req: PlanRequest, sig: Signals, cfg: Config): Context {
    Context(ScenariosFor(req, sig, cfg),
            ContextDebug(WeatherDebugFor(sig), sig.distanceKm, TrafficDebugFor(req, sig, cfg)))
  }

  /** `build_scenarios`: append the tags step by step, then drop repeats keeping first occurrences. */
  method BuildScenarios(req: PlanRequest, sig: Signals, cfg: Config) returns (ctx: Context)
    ensures ctx == ContextFor(req, sig, cfg)
  {
    var scenarios, wdbg := WeatherAndTime(req, sig);
    scenarios := Append(scenarios, sig.distanceKm >= cfg.longTripKm, "long_trip");
    scenarios := Append(scenarios, sig.distanceKm <= cfg.cityTripKm, "short_city_trip");
    scenarios := Append(scenarios, req.urgent, "urgent");
    scenarios := Append(scenarios, req.budgetTight, "budget_tight");
    scenarios := Append(scenarios, req.kidsOnboard, "kids_onboard");
    scenarios := Append(scenarios, req.fatigue, "fatigue");
    scenarios := Append(scenarios, req.leisureTrip, "leisure_trip");
    scenarios := Append(scenarios, req.fuelLow, "fuel_low");
    scenarios := Append(scenarios, req.fuelCritical, "fuel_critical");
    scenarios := Append(scenarios, req.roadClosure, "road_closure");
    scenarios := Append(scenarios, req.trafficHeavy, "traffic_heavy");
    scenarios := Append(scenarios, req.shortCityTrip == Some(true) && "short_city_trip" !in scenarios, "short_city_trip");
    var traffic, tdbg := TrafficLookup(req, sig, cfg);
    scenarios := scenarios + traffic;
    var unique := RemoveDuplicates(scenarios);
    ctx := Context(unique, ContextDebug(wdbg, sig.distanceKm, tdbg));
  }

  /** One conditional append to the scenario list. */
  method Append(s: seq<string>, on: bool, tag: string) returns (r: seq<string>)
    ensures r == s + When(on, tag)
  {
    r := s;
    if on {
      r := r + [tag];
    }
  }

  /** The first steps of `build_scenarios`: the weather lookup, day or night, and good weather. */
  method WeatherAndTime(req: PlanRequest, sig: Signals) returns (scenarios: seq<string>, wdbg: WeatherDebug)
    ensures scenarios == WeatherStage(req, sig) && wdbg == WeatherDebugFor(sig)
  {
    scenarios := [];
    match sig.weather {
      case Ok(data) =>
        var w := Weather.GetScenarios(data);
        scenarios := w.scenarios;
        wdbg := WeatherSeen(w.rawMain, w.scenarios);
      case Err(e) =>
        wdbg := WeatherFailed(e);
    }
    if IsNight(sig.hour) {
      scenarios := scenarios + ["night"];
    } else {
      scenarios := scenarios + ["day"];
    }
    scenarios := Append(scenarios, !("rain" in scenarios || "snow" in scenarios || "fog" in scenarios || "storm" in scenarios), "good_weather");
    scenarios := Append(scenarios, req.goodWeather == Some(true) && "good_weather" !in scenarios, "good_weather");
  }

  /** The traffic lookup around the origin, unless the user already reported a closure or heavy traffic. */
  method TrafficLookup(req: PlanRequest, sig: Signals, cfg: Config) returns (tags: seq<string>, tdbg: TrafficDebug)
    ensures tags == TrafficPart(req, sig) && tdbg == TrafficDebugFor(req, sig, cfg)
  {
    tags := [];
    if !req.roadClosure && !req.trafficHeavy {
      var box := TrafficBox(req.origin, cfg.bboxMarginDeg);
      match sig.traffic {
        case Ok(fetch) =>
          var tt := Traffic.IncidentsBbox(fetch);
          tags := tt.scenarios;
          tdbg := TrafficSeen(box, tt.scenarios, tt.error, tt.endpoint);
        case Err(e) =>
          tdbg := TrafficFailed(e);
      }
    } else {
      tdbg := TrafficSkipped;
    }
  }

  // ---------------------------------------------------------------- properties of /context

  /** Every tag `build_scenarios` can produce. */
  const ScenarioVocabulary: seq<string> := [
    "rain", "snow", "fog", "storm", "night", "day", "good_weather", "long_trip", "short_city_trip",
    "urgent", "budget_tight", "kids_onboard", "fatigue", "leisure_trip", "fuel_low", "fuel_critical",
    "road_closure", "traffic_heavy"]

  /** Which request flags put which tag into the list. */
  predicate FlagOn(req: PlanRequest, x: string) {
    UserFlagOn(req, x) || ExtraFlagOn(req, x) || TripFlagOn(req, x)
  }

  predicate UserFlagOn(req: PlanRequest, x: string) {
    || (x == "urgent" && req.urgent)
    || (x == "budget_tight" && req.budgetTight)
    || (x == "kids_onboard" && req.kidsOnboard)
    || (x == "fatigue" && req.fatigue)
    || (x == "leisure_trip" && req.leisureTrip)
  }

  predicate ExtraFlagOn(req: PlanRequest, x: string) {
    (x == "fuel_low" && req.fuelLow) || (x == "fuel_critical" && req.fuelCritical)
  }

  predicate TripFlagOn(req: PlanRequest, x: string) {
    (x == "road_closure" && req.roadClosure) || (x == "traffic_heavy" && req.trafficHeavy)
  }

  lemma WeatherPartShape(sig: Signals)
    ensures forall x :: x in WeatherPart(sig) ==> x in Weather.WeatherTags
    ensures NoDup(WeatherPart(sig))
  {
    if sig.weather.Ok? {
      Weather.WeatherTagsShape(sig.weather.value);
    }
  }

  lemma TrafficPartShape(req: PlanRequest, sig: Signals)
    ensures forall x :: x in TrafficPart(req, sig) ==> x == "traffic_heavy" || x == "road_closure"
  {
    if TrafficFetched(req, sig) {
      Traffic.IncidentTagsShape(Traffic.IncidentsOf(sig.traffic.value.data));
    }
  }

  predicate TrafficFetched(req: PlanRequest, sig: Signals) {
    TrafficQueried(req) && sig.traffic.Ok? && sig.traffic.value.Fetched?
  }

  /** The good-weather heuristic fires exactly when the weather lookup reported no weather tag. */
  lemma BadWeatherIffReported(sig: Signals)
    ensures HasBadWeather(WeatherPart(sig) + [TimeTag(sig.hour)]) <==> WeatherPart(sig) != []
  {
    var w := WeatherPart(sig);
    WeatherPartShape(sig);
    if w != [] {
      assert w[0] in Weather.WeatherTags;
      assert w[0] in w + [TimeTag(sig.hour)];
    }
  }

  lemma WeatherStageMembership(req: PlanRequest, sig: Signals, x: string)
    ensures x in WeatherStage(req, sig) <==>
      || x in WeatherPart(sig)
      || x == TimeTag(sig.hour)
      || (x == "good_weather" && (WeatherPart(sig) == [] || req.goodWeather == Some(true)))
  {
    BadWeatherIffReported(sig);
  }

  lemma UserFlagMembership(s: seq<string>, req: PlanRequest, x: string)
    ensures x in UserFlags(s, req) <==> x in s || UserFlagOn(req, x)
  {
  }

  lemma FlagMembership(s: seq<string>, req: PlanRequest, x: string)
    ensures x in FlagTags(s, req) <==> x in s || FlagOn(req, x)
  {
    UserFlagMembership(s, req, x);
  }

  /** Membership in the raw list, stage by stage. */
  lemma RawMembership(req: PlanRequest, sig: Signals, cfg: Config, x: string)
    ensures x in RawScenarios(req, sig, cfg) <==>
      || x in WeatherPart(sig)
      || x == TimeTag(sig.hour)
      || (x == "good_weather" && (WeatherPart(sig) == [] || req.goodWeather == Some(true)))
      || (x == "long_trip" && sig.distanceKm >= cfg.longTripKm)
      || (x == "short_city_trip" && (sig.distanceKm <= cfg.cityTripKm || req.shortCityTrip == Some(true)))
      || FlagOn(req, x)
      || x in TrafficPart(req, sig)
  {
    WeatherStageMembership(req, sig, x);
    FlagMembership(TripTags(WeatherStage(req, sig), sig.distanceKm, cfg), req, x);
  }

  /** What decides membership in the answer, gathered per stage. */
  datatype Stages = Stages(
    weather: seq<string>, time: string, good: bool, long: bool, city: bool, req: PlanRequest, traffic: seq<string>)

  function StagesOf(req: PlanRequest, sig: Signals, cfg: Config): Stages {
    Stages(WeatherPart(sig), TimeTag(sig.hour),
           WeatherPart(sig) == [] || req.goodWeather == Some(true),
           sig.distanceKm >= cfg.longTripKm,
           sig.distanceKm <= cfg.cityTripKm || req.shortCityTrip == Some(true),
           req, TrafficPart(req, sig))
  }

  predicate InStages(st: Stages, x: string) {
    || x in st.weather
    || x == st.time
    || (x == "good_weather" && st.good)
    || (x == "long_trip" && st.long)
    || (x == "short_city_trip" && st.city)
    || FlagOn(st.req, x)
    || x in st.traffic
  }

  /** The tags each stage can contribute. */
  predicate StagesShape(st: Stages) {
    && (forall x :: x in st.weather ==> x in Weather.WeatherTags)
    && (st.time == "night" || st.time == "day")
    && (forall x :: x in st.traffic ==> x == "traffic_heavy" || x == "road_closure")
  }

  lemma ScenarioMembership(req: PlanRequest, sig: Signals, cfg: Config)
    ensures forall x :: x in ScenariosFor(req, sig, cfg) <==> InStages(StagesOf(req, sig, cfg), x)
    ensures StagesShape(StagesOf(req, sig, cfg))
  {
    forall x ensures x in ScenariosFor(req, sig, cfg) <==> InStages(StagesOf(req, sig, cfg), x) {
      RawMembership(req, sig, cfg, x);
    }
    WeatherPartShape(sig);
    TrafficPartShape(req, sig);
  }

  lemma DayOrNightOf(s: seq<string>, st: Stages)
    requires StagesShape(st)
    requires forall x :: x in s <==> InStages(st, x)
    ensures "night" in s <==> st.time == "night"
    ensures "day" in s <==> st.time == "day"
  {
    assert InStages(st, "night") <==> st.time == "night";
    assert InStages(st, "day") <==> st.time == "day";
  }

  /** Exactly one of `night` and `day` is present, following the hour. */
  lemma DayOrNight(req: PlanRequest, sig: Signals, cfg: Config)
    ensures "night" in ScenariosFor(req, sig, cfg) <==> IsNight(sig.hour)
    ensures "day" in ScenariosFor(req, sig, cfg) <==> !IsNight(sig.hour)
  {
    ScenarioMembership(req, sig, cfg);
    DayOrNightOf(ScenariosFor(req, sig, cfg), StagesOf(req, sig, cfg));
  }

  lemma GoodWeatherOf(s: seq<string>, st: Stages)
    requires StagesShape(st)
    requires forall x :: x in s <==> InStages(st, x)
    ensures "good_weather" in s <==> st.good
  {
    assert InStages(st, "good_weather") <==> st.good;
  }

  /**
   * `good_weather` is present exactly when the weather lookup reported no
   * weather tag (or raised), or when the request forces it.
   */
  lemma GoodWeatherRule(req: PlanRequest, sig: Signals, cfg: Config)
    ensures "good_weather" in ScenariosFor(req, sig, cfg) <==> WeatherPart(sig) == [] || req.goodWeather == Some(true)
  {
    ScenarioMembership(req, sig, cfg);
    GoodWeatherOf(ScenariosFor(req, sig, cfg), StagesOf(req, sig, cfg));
  }

  lemma WeatherTagsOf(s: seq<string>, st: Stages)
    requires StagesShape(st)
    requires forall x :: x in s <==> InStages(st, x)
    ensures forall t :: t in Weather.WeatherTags ==> (t in s <==> t in st.weather)
  {
    forall t | t in Weather.WeatherTags
      ensures t in s <==> t in st.weather
    {
      assert InStages(st, t) <==> t in st.weather;
    }
  }

  /** The weather tags in the answer are exactly those the weather lookup reported. */
  lemma WeatherTagsReported(req: PlanRequest, sig: Signals, cfg: Config)
    ensures forall t :: t in Weather.WeatherTags ==> (t in ScenariosFor(req, sig, cfg) <==> t in WeatherPart(sig))
  {
    ScenarioMembership(req, sig, cfg);
    WeatherTagsOf(ScenariosFor(req, sig, cfg), StagesOf(req, sig, cfg));
  }

  lemma BadWeatherOf(s: seq<string>, st: Stages)
    requires StagesShape(st)
    requires forall x :: x in s <==> InStages(st, x)
    ensures HasBadWeather(s) <==> st.weather != []
  {
    WeatherTagsOf(s, st);
    if st.weather != [] {
      assert st.weather[0] in Weather.WeatherTags;
    }
  }

  /** Unless the request forces it, `good_weather` appears exactly when no bad-weather tag does. */
  lemma GoodWeatherExcludesBadWeather(req: PlanRequest, sig: Signals, cfg: Config)
    requires req.goodWeather != Some(true)
    ensures "good_weather" in ScenariosFor(req, sig, cfg) <==> !HasBadWeather(ScenariosFor(req, sig, cfg))
  {
    ScenarioMembership(req, sig, cfg);
    GoodWeatherOf(ScenariosFor(req, sig, cfg), StagesOf(req, sig, cfg));
    BadWeatherOf(ScenariosFor(req, sig, cfg), StagesOf(req, sig, cfg));
  }

  lemma TripLengthOf(s: seq<string>, st: Stages)
    requires StagesShape(st)
    requires forall x :: x in s <==> InStages(st, x)
    ensures "long_trip" in s <==> st.long
    ensures "short_city_trip" in s <==> st.city
  {
    assert InStages(st, "long_trip") <==> st.long;
    assert InStages(st, "short_city_trip") <==> st.city;
  }

  /** The length tags follow the thresholds; the request can force a city trip but not a long one. */
  lemma TripLengthRule(req: PlanRequest, sig: Signals, cfg: Config)
    ensures "long_trip" in ScenariosFor(req, sig, cfg) <==> sig.distanceKm >= cfg.longTripKm
    ensures "short_city_trip" in ScenariosFor(req, sig, cfg) <==>
      sig.distanceKm <= cfg.cityTripKm || req.shortCityTrip == Some(true)
  {
    ScenarioMembership(req, sig, cfg);
    TripLengthOf(ScenariosFor(req, sig, cfg), StagesOf(req, sig, cfg));
  }

  lemma UserFlagsOf(s: seq<string>, st: Stages)
    requires StagesShape(st)
    requires forall x :: x in s <==> InStages(st, x)
    ensures "urgent" in s <==> st.req.urgent
    ensures "budget_tight" in s <==> st.req.budgetTight
  {
    assert InStages(st, "urgent") <==> st.req.urgent;
    assert InStages(st, "budget_tight") <==> st.req.budgetTight;
  }

  lemma CareFlagsOf(s: seq<string>, st: Stages)
    requires StagesShape(st)
    requires forall x :: x in s <==> InStages(st, x)
    ensures "kids_onboard" in s <==> st.req.kidsOnboard
    ensures "fatigue" in s <==> st.req.fatigue
  {
    assert InStages(st, "kids_onboard") <==> st.req.kidsOnboard;
    assert InStages(st, "fatigue") <==> st.req.fatigue;
  }

  /** Each of the user's own flags shows up as its tag, and only then. */
  lemma UserFlagRule(req: PlanRequest, sig: Signals, cfg: Config)
    ensures "urgent" in ScenariosFor(req, sig, cfg) <==> req.urgent
    ensures "budget_tight" in ScenariosFor(req, sig, cfg) <==> req.budgetTight
    ensures "kids_onboard" in ScenariosFor(req, sig, cfg) <==> req.kidsOnboard
    ensures "fatigue" in ScenariosFor(req, sig, cfg) <==> req.fatigue
  {
    ScenarioMembership(req, sig, cfg);
    UserFlagsOf(ScenariosFor(req, sig, cfg), StagesOf(req, sig, cfg));
    CareFlagsOf(ScenariosFor(req, sig, cfg), StagesOf(req, sig, cfg));
  }

  lemma TripFlagsOf(s: seq<string>, st: Stages)
    requires StagesShape(st)
    requires forall x :: x in s <==> InStages(st, x)
    ensures "leisure_trip" in s <==> st.req.leisureTrip
    ensures "fuel_low" in s <==> st.req.fuelLow
    ensures "fuel_critical" in s <==> st.req.fuelCritical
  {
    assert InStages(st, "leisure_trip") <==> st.req.leisureTrip;
    assert InStages(st, "fuel_low") <==> st.req.fuelLow;
    assert InStages(st, "fuel_critical") <==> st.req.fuelCritical;
  }

  /** The leisure and fuel flags show up as their tags, and only then. */
  lemma TripFlagRule(req: PlanRequest, sig: Signals, cfg: Config)
    ensures "leisure_trip" in ScenariosFor(req, sig, cfg) <==> req.leisureTrip
    ensures "fuel_low" in ScenariosFor(req, sig, cfg) <==> req.fuelLow
    ensures "fuel_critical" in ScenariosFor(req, sig, cfg) <==> req.fuelCritical
  {
    ScenarioMembership(req, sig, cfg);
    TripFlagsOf(ScenariosFor(req, sig, cfg), StagesOf(req, sig, cfg));
  }

  lemma TrafficTagsOf(s: seq<string>, st: Stages)
    requires StagesShape(st)
    requires forall x :: x in s <==> InStages(st, x)
    ensures "road_closure" in s <==> st.req.roadClosure || "road_closure" in st.traffic
    ensures "traffic_heavy" in s <==> st.req.trafficHeavy || "traffic_heavy" in st.traffic
  {
    assert InStages(st, "road_closure") <==> st.req.roadClosure || "road_closure" in st.traffic;
    assert InStages(st, "traffic_heavy") <==> st.req.trafficHeavy || "traffic_heavy" in st.traffic;
  }

  /**
   * The traffic tags come from the user or, only when the user reported
   * neither, from the traffic lookup.
   */
  lemma TrafficTagRule(req: PlanRequest, sig: Signals, cfg: Config)
    ensures "road_closure" in ScenariosFor(req, sig, cfg) <==>
      req.roadClosure || (TrafficQueried(req) && sig.traffic.Ok? && "road_closure" in Traffic.FetchTags(sig.traffic.value))
    ensures "traffic_heavy" in ScenariosFor(req, sig, cfg) <==>
      req.trafficHeavy || (TrafficQueried(req) && sig.traffic.Ok? && "traffic_heavy" in Traffic.FetchTags(sig.traffic.value))
  {
    ScenarioMembership(req, sig, cfg);
    TrafficTagsOf(ScenariosFor(req, sig, cfg), StagesOf(req, sig, cfg));
  }

  lemma VocabularyOf(s: seq<string>, st: Stages)
    requires StagesShape(st)
    requires forall x :: x in s <==> InStages(st, x)
    ensures forall x :: x in s ==> x in ScenarioVocabulary
  {
    forall x | x in s
      ensures x in ScenarioVocabulary
    {
      assert InStages(st, x);
    }
  }

  /** Every tag comes from the fixed vocabulary, and none twice. */
  lemma ScenarioVocabularyOnly(req: PlanRequest, sig: Signals, cfg: Config)
    ensures forall x :: x in ScenariosFor(req, sig, cfg) ==> x in ScenarioVocabulary
    ensures NoDup(ScenariosFor(req, sig, cfg))
  {
    ScenarioMembership(req, sig, cfg);
    VocabularyOf(ScenariosFor(req, sig, cfg), StagesOf(req, sig, cfg));
  }

  /** Keeping first occurrences preserves a prefix. */
  lemma DistinctMonotone(a: seq<string>, b: seq<string>)
    requires a <= b
    ensures Distinct(a) <= Distinct(b)
  {
    assert b == a + b[|a|..];
    DistinctPrefix(a, b[|a|..]);
  }

  lemma PrefixStep(a: seq<string>, b: seq<string>, c: seq<string>)
    requires a <= b
    ensures a <= b + c
  {
    assert (b + c)[..|a|] == b[..|a|];
  }

  /** The answer starts with the weather tags, in the lookup's order, then the time of day. */
  lemma WeatherThenTimeFirst(req: PlanRequest, sig: Signals, cfg: Config)
    ensures WeatherPart(sig) + [TimeTag(sig.hour)] <= ScenariosFor(req, sig, cfg)
  {
    var head := WeatherPart(sig) + [TimeTag(sig.hour)];
    HeadOfWeatherStage(req, sig);
    HeadOfRaw(req, sig, cfg, head);
    PrefixSurvivesDistinct(head, RawScenarios(req, sig, cfg));
  }

  /** The weather steps start with the weather tags and the time of day, none of them twice. */
  lemma HeadOfWeatherStage(req: PlanRequest, sig: Signals)
    ensures WeatherPart(sig) + [TimeTag(sig.hour)] <= WeatherStage(req, sig)
    ensures NoDup(WeatherPart(sig) + [TimeTag(sig.hour)])
  {
    var w, tag := WeatherPart(sig), TimeTag(sig.hour);
    var s1 := w + [tag];
    var s2 := s1 + When(!HasBadWeather(s1), "good_weather");
    assert s1 <= s2;
    PrefixStep(s1, s2, When(req.goodWeather == Some(true) && "good_weather" !in s2, "good_weather"));
    WeatherPartShape(sig);
    assert tag !in w;
  }

  /** A repeat-free prefix is kept as it is when repeats are dropped. */
  lemma PrefixSurvivesDistinct(head: seq<string>, s: seq<string>)
    requires NoDup(head) && head <= s
    ensures head <= Distinct(s)
  {
    DistinctOfNoDup(head);
    DistinctMonotone(head, s);
  }

  lemma HeadOfRaw(req: PlanRequest, sig: Signals, cfg: Config, head: seq<string>)
    requires head <= WeatherStage(req, sig)
    ensures head <= RawScenarios(req, sig, cfg)
  {
    var s3 := WeatherStage(req, sig);
    var t := TripTags(s3, sig.distanceKm, cfg);
    assert head <= t by {
      PrefixStep(head, s3, When(sig.distanceKm >= cfg.longTripKm, "long_trip"));
      PrefixStep(head, s3 + When(sig.distanceKm >= cfg.longTripKm, "long_trip"), When(sig.distanceKm <= cfg.cityTripKm, "short_city_trip"));
    }
    var u := UserFlags(t, req);
    assert head <= u by {
      var p1 := t + When(req.urgent, "urgent");
      var p2 := p1 + When(req.budgetTight, "budget_tight");
      var p3 := p2 + When(req.kidsOnboard, "kids_onboard");
      var p4 := p3 + When(req.fatigue, "fatigue");
      PrefixStep(head, t, When(req.urgent, "urgent"));
      PrefixStep(head, p1, When(req.budgetTight, "budget_tight"));
      PrefixStep(head, p2, When(req.kidsOnboard, "kids_onboard"));
      PrefixStep(head, p3, When(req.fatigue, "fatigue"));
      PrefixStep(head, p4, When(req.leisureTrip, "leisure_trip"));
    }
    var e := ExtraFlags(u, req);
    assert head <= e by {
      PrefixStep(head, u, When(req.fuelLow, "fuel_low"));
      PrefixStep(head, u + When(req.fuelLow, "fuel_low"), When(req.fuelCritical, "fuel_critical"));
    }
    var f := TripFlags(e, req);
    assert head <= f by {
      PrefixStep(head, e, When(req.roadClosure, "road_closure"));
      PrefixStep(head, e + When(req.roadClosure, "road_closure"), When(req.trafficHeavy, "traffic_heavy"));
    }
    var s5 := f + When(req.shortCityTrip == Some(true) && "short_city_trip" !in f, "short_city_trip");
    PrefixStep(head, f, When(req.shortCityTrip == Some(true) && "short_city_trip" !in f, "short_city_trip"));
    PrefixStep(head, s5, TrafficPart(req, sig));
  }

  // ---------------------------------------------------------------- /plan: scenarios and elements

  /** `plan`'s additions to the scenario list: critical fuel brings low fuel, a closure brings heavy traffic. */
  function CloseScenarios(scenarios: seq<string>): (r: seq<string>)
    ensures scenarios <= r
    ensures "fuel_critical" in r ==> "fuel_low" in r
    ensures "road_closure" in r ==> "traffic_heavy" in r
    ensures forall x :: x in r <==>
      x in scenarios || (x == "fuel_low" && "fuel_critical" in scenarios) ||
      (x == "traffic_heavy" && "road_closure" in scenarios)
    ensures NoDup(scenarios) ==> NoDup(r)
  {
    var a := scenarios + When("fuel_critical" in scenarios && "fuel_low" !in scenarios, "fuel_low");
    a + When("road_closure" in a && "traffic_heavy" !in a, "traffic_heavy")
  }

  /** Closing a closed list changes nothing. */
  lemma CloseScenariosIdempotent(scenarios: seq<string>)
    ensures CloseScenarios(CloseScenarios(scenarios)) == CloseScenarios(scenarios)
  {
    var c := CloseScenarios(scenarios);
    assert When("fuel_critical" in c && "fuel_low" !in c, "fuel_low") == [];
    assert c + [] == c;
  }

  /** `apply_implications`: add the implied labels, then Python's `sorted(set(...))`. */
  function ApplyImplications(elements: seq<string>): (r: seq<string>)
    ensures Sorted(r) && NoDup(r)
    ensures forall x :: x in r <==>
      x in elements || (x == "fuel_low" && "fuel_critical" in elements) ||
      (x == "traffic_heavy" && "road_closure" in elements)
  {
    var s := elements + When("fuel_critical" in elements, "fuel_low");
    SortedUnique(s + When("road_closure" in s, "traffic_heavy"))
  }

  /** Applying the implications twice is applying them once. */
  lemma ApplyImplicationsIdempotent(elements: seq<string>)
    ensures ApplyImplications(ApplyImplications(elements)) == ApplyImplications(elements)
  {
    var r := ApplyImplications(elements);
    SortedUniqueBySet(ApplyImplications(r), r);
  }

  /** Only the set of labels matters, not their order or repeats. */
  lemma ApplyImplicationsBySet(a: seq<string>, b: seq<string>)
    requires forall x :: x in a <==> x in b
    ensures ApplyImplications(a) == ApplyImplications(b)
  {
    SortedUniqueBySet(ApplyImplications(a), ApplyImplications(b));
  }

  /** The scenario tags passed on as engine elements of the same name, in the order they are tried. */
  const ElementFlags: seq<string> :=
    ["fuel_low", "fuel_critical", "urgent", "budget_tight", "road_closure", "traffic_heavy", "short_city_trip"]

  /** The composite element label. */
  const LeisureInGoodWeather := "leisure_trip and good_weather"

  /** The members of `flags` that occur in `s`, in the order of `flags`. */
  function Present(flags: seq<string>, s: seq<string>): (r: seq<string>)
    ensures forall x :: x in r <==> x in flags && x in s
  {
    if flags == [] then []
    else
      var init, last := flags[..|flags| - 1], flags[|flags| - 1];
      assert flags == init + [last];
      Present(init, s) + When(last in s, last)
  }

  /** The element list before the implications: `route_asked`, the flags present, the composite label. */
  function ElementCandidates(scenarios: seq<string>): seq<string> {
    ["route_asked"] + Present(ElementFlags, scenarios)
      + When("leisure_trip" in scenarios && "good_weather" in scenarios, LeisureInGoodWeather)
  }

  /** What `build_ai_raison_elements_from_scenarios` returns. */
  function ElementsFor(scenarios: seq<string>): seq<string> {
    ApplyImplications(ElementCandidates(scenarios))
  }

  /** `build_ai_raison_elements_from_scenarios`: the loop over the seven flags, the composite, the implications. */
  method BuildElements(scenarios: seq<string>) returns (elements: seq<string>)
    ensures elements == ElementsFor(scenarios)
  {
    var candidates := AppendPresent(["route_asked"], ElementFlags, scenarios);
    candidates := Append(candidates, "leisure_trip" in scenarios && "good_weather" in scenarios, LeisureInGoodWeather);
    elements := ApplyImplications(candidates);
  }

  /** The loop `for lab in flags: if lab in s: elements.append(lab)`. */
  method AppendPresent(prefix: seq<string>, flags: seq<string>, scenarios: seq<string>) returns (r: seq<string>)
    ensures r == prefix + Present(flags, scenarios)
  {
    r := prefix;
    for i := 0 to |flags|
      invariant r == prefix + Present(flags[..i], scenarios)
    {
      var lab := flags[i];
      assert flags[..i + 1][..i] == flags[..i];
      r := Append(r, lab in scenarios, lab);
      assert Present(flags[..i + 1], scenarios) == Present(flags[..i], scenarios) + When(lab in scenarios, lab);
    }
    assert flags[..|flags|] == flags;
  }

  /** Membership in the element list, in terms of the scenario tags. */
  lemma ElementMembership(scenarios: seq<string>)
    ensures forall x :: x in ElementsFor(scenarios) <==>
      x == "route_asked" || (x in ElementFlags && x in scenarios) ||
      (x == LeisureInGoodWeather && "leisure_trip" in scenarios && "good_weather" in scenarios) ||
      (x == "fuel_low" && "fuel_critical" in scenarios) || (x == "traffic_heavy" && "road_closure" in scenarios)
  {
  }

  /**
   * The element list always holds `route_asked`, is sorted and free of
   * repeats, and every label is a key of the element table, so building the
   * payload never rejects it.
   */
  lemma ElementsShape(scenarios: seq<string>)
    ensures "route_asked" in ElementsFor(scenarios)
    ensures Sorted(ElementsFor(scenarios)) && NoDup(ElementsFor(scenarios))
    ensures forall x :: x in ElementsFor(scenarios) ==> x in AiRaison.ElementIds
    ensures AiRaison.LabelError(ElementsFor(scenarios), None).None?
  {
    ElementMembership(scenarios);
    AiRaison.OptionLabelsAreTheKeys();
  }

  /** Critical fuel brings the low-fuel element, a closure the heavy-traffic element. */
  lemma ElementImplicationRule(scenarios: seq<string>)
    ensures "fuel_low" in ElementsFor(scenarios) <==> "fuel_low" in scenarios || "fuel_critical" in scenarios
    ensures "traffic_heavy" in ElementsFor(scenarios) <==> "traffic_heavy" in scenarios || "road_closure" in scenarios
  {
    ElementMembership(scenarios);
  }

  /** The other five flags are passed on exactly when present. */
  lemma ElementFlagRule(scenarios: seq<string>)
    ensures "fuel_critical" in ElementsFor(scenarios) <==> "fuel_critical" in scenarios
    ensures "urgent" in ElementsFor(scenarios) <==> "urgent" in scenarios
    ensures "budget_tight" in ElementsFor(scenarios) <==> "budget_tight" in scenarios
    ensures "road_closure" in ElementsFor(scenarios) <==> "road_closure" in scenarios
    ensures "short_city_trip" in ElementsFor(scenarios) <==> "short_city_trip" in scenarios
  {
    ElementMembership(scenarios);
  }

  /** The composite element needs both a leisure trip and good weather. */
  lemma CompositeElementRule(scenarios: seq<string>)
    ensures LeisureInGoodWeather in ElementsFor(scenarios) <==> "leisure_trip" in scenarios && "good_weather" in scenarios
  {
    ElementMembership(scenarios);
  }

  /** No other tag produces an element: `night`, `rain`, `kids_onboard`, `long_trip` and the rest are dropped. */
  lemma ElementsOnlyFromFlags(scenarios: seq<string>)
    ensures forall x :: x in ElementsFor(scenarios) ==> x == "route_asked" || x == LeisureInGoodWeather || x in ElementFlags
  {
    ElementMembership(scenarios);
  }

  /** The tags the element list depends on. */
  const ElementInputs: seq<string> := ElementFlags + ["leisure_trip", "good_weather"]

  /** Two scenario lists that agree on the element inputs give the same element list. */
  lemma ElementsIgnoreOtherScenarios(a: seq<string>, b: seq<string>)
    requires forall x :: x in ElementInputs ==> (x in a <==> x in b)
    ensures ElementsFor(a) == ElementsFor(b)
  {
    ElementMembership(a);
    ElementMembership(b);
    SortedUniqueBySet(ElementsFor(a), ElementsFor(b));
  }

  /** `plan`'s own closure step is invisible in the element list, which applies the same implications. */
  lemma ClosureInvisibleToElements(scenarios: seq<string>)
    ensures ElementsFor(CloseScenarios(scenarios)) == ElementsFor(scenarios)
  {
    ElementMembership(scenarios);
    ElementMembership(CloseScenarios(scenarios));
    SortedUniqueBySet(ElementsFor(CloseScenarios(scenarios)), ElementsFor(scenarios));
  }

  // ---------------------------------------------------------------- /plan: solutions and the routing plan

  /** What `extract_solutions_and_explanations` returns; a reply that is not a list falls back to `route_fast`. */
  function SolutionsOf(raw: AiRaison.EngineResponse): (seq<string>, map<string, seq<string>>) {
    match raw
    case NotAList(_) => (["route_fast"], map[])
    case Items(items) => (AiRaison.ChosenSolutions(items), AiRaison.Explanations(items))
  }

  /** `extract_solutions_and_explanations`: collect the qualifying items, drop repeats, fall back. */
  method ExtractSolutions(raw: AiRaison.EngineResponse) returns (solutions: seq<string>, explanations: map<string, seq<string>>)
    ensures (solutions, explanations) == SolutionsOf(raw)
  {
    if raw.NotAList? {
      return ["route_fast"], map[];
    }
    var sols, exps := AiRaison.CollectSolutions(raw.items);
    solutions := RemoveDuplicates(sols);
    if solutions == [] {
      solutions := ["route_fast"];
    }
    explanations := exps;
  }

  /**
   * The extracted solutions are never empty and free of repeats; a list reply
   * gives its distinct qualifying labels in first-seen order, or `route_fast`
   * without an explanation when none qualifies.
   */
  lemma ExtractionShape(raw: AiRaison.EngineResponse)
    ensures SolutionsOf(raw).0 != [] && NoDup(SolutionsOf(raw).0)
    ensures raw.Items? && AiRaison.SolutionLabels(raw.items) != [] ==>
      SolutionsOf(raw).0 == Distinct(AiRaison.SolutionLabels(raw.items))
    ensures raw.Items? ==> forall l :: l in SolutionsOf(raw).1 <==> l in AiRaison.SolutionLabels(raw.items)
    ensures (raw.Items? && AiRaison.SolutionLabels(raw.items) == []) || raw.NotAList? ==>
      SolutionsOf(raw) == (["route_fast"], map[])
  {
    if raw.Items? {
      AiRaison.ChosenSolutionsShape(raw.items);
      AiRaison.ExplanationKeys(raw.items);
      if AiRaison.SolutionLabels(raw.items) == [] {
        assert forall l :: l !in AiRaison.Explanations(raw.items);
      }
    }
  }

  /** The compiled request plan: a refuel stop or not, the features to avoid, the objective. */
  datatype RoutingPlan = RoutingPlan(needRefuel: bool, avoidFeatures: seq<string>, preference: string)

  /** `compile_ors_plan`. */
  function CompilePlan(labels: seq<string>): (p: RoutingPlan)
    ensures p.needRefuel <==> "route_refuel" in labels
    ensures Sorted(p.avoidFeatures) && NoDup(p.avoidFeatures)
    ensures "highways" in p.avoidFeatures <==> "route_detour" in labels || "route_scenic" in labels
    ensures "tollways" in p.avoidFeatures <==> "route_toll_free" in labels
    ensures forall f :: f in p.avoidFeatures ==> f == "highways" || f == "tollways"
    ensures p.preference == "shortest" <==> ("route_short" in labels || "route_scenic" in labels) && "route_fast" !in labels
    ensures p.preference == "fastest" || p.preference == "shortest"
  {
    var avoid := When("route_detour" in labels, "highways") + When("route_toll_free" in labels, "tollways")
      + When("route_scenic" in labels, "highways");
    var preference :=
      if "route_fast" in labels then "fastest"
      else if "route_short" in labels || "route_scenic" in labels then "shortest"
      else "fastest";
    RoutingPlan("route_refuel" in labels, SortedUnique(avoid), preference)
  }

  /** Only the six option labels matter: any other label, a repeat or the order changes nothing. */
  lemma CompilePlanIgnoresOtherLabels(a: seq<string>, b: seq<string>)
    requires forall l :: l in AiRaison.OptionLabels ==> (l in a <==> l in b)
    ensures CompilePlan(a) == CompilePlan(b)
  {
    var detour, tollFree, scenic := "route_detour" in a, "route_toll_free" in a, "route_scenic" in a;
    assert detour == ("route_detour" in b) && tollFree == ("route_toll_free" in b) && scenic == ("route_scenic" in b);
    assert ("route_refuel" in a) == ("route_refuel" in b);
    assert ("route_short" in a) == ("route_short" in b) && ("route_fast" in a) == ("route_fast" in b);
  }

  // ---------------------------------------------------------------- /plan: the handler

  /** A `[lon, lat]` coordinate pair as the routing service takes it. */
  datatype LonLat = LonLat(lon: real, lat: real)

  /** The routing request: waypoints, objective, features to avoid. */
  datatype RouteRequest = RouteRequest(coordinates: seq<LonLat>, preference: string, avoidFeatures: seq<string>)

  /** The routing result `plan` reads: distance, duration and the line geometry. */
  datatype Route = Route(distanceM: real, durationS: real, geometry: seq<LonLat>)

  /** The routing call raised (its message), or returned a route. */
  datatype RouteOutcome = RouteFailed(error: string) | Routed(route: Route)

  /** The services `/plan` calls besides those of `/context`, each given as what it answers to a request. */
  datatype Services = Services(
    engine: AiRaison.Payload -> AiRaison.EngineOutcome,
    overpass: string -> FuelStations.OverpassFetch,
    ors: RouteRequest -> RouteOutcome)

  /** `ai_raison_raw`: the marker of a forced option, or the engine's list. */
  datatype RawReply = ForcedReply | EngineReply(items: seq<AiRaison.Item>)

  datatype RoutePayload = RoutePayload(
    distanceM: real, durationS: real, geometry: seq<LonLat>,
    debugPlan: RoutingPlan, debugStation: Option<FuelStations.FuelStation>)

  datatype PlanResponse = PlanResponse(
    chosenSolutions: seq<string>, scenarios: seq<string>, aiElements: seq<string>,
    route: RoutePayload, aiRaw: RawReply, explanations: map<string, seq<string>>)

  /** An HTTP error response: status code and detail. */
  datatype HttpError = HttpError(status: int, detail: string)

  /** The decision step's result: solutions, explanations, the elements sent, the raw reply. */
  datatype Choice = Choice(solutions: seq<string>, explanations: map<string, seq<string>>, elements: seq<string>, raw: RawReply)

  /** A forced option is set when it is present and non-empty (Python truthiness). */
  predicate Forced(req: PlanRequest) {
    req.forcedOption.Some? && req.forcedOption.value != ""
  }

  /** The decision step of `plan`: the forced option, or the engine's answer to the scenarios' elements. */
  function ChoiceFor(req: PlanRequest, scenarios: seq<string>, svc: Services): Result<Choice, HttpError> {
    if Forced(req) then Ok(Choice([req.forcedOption.value], map[], ["forced_option"], ForcedReply))
    else
      var elements := ElementsFor(scenarios);
      ChoiceOfDecision(elements, AiRaison.DecisionOf(elements, None, svc.engine))
  }

  /** The `try` block around `decide`: an error becomes a 502, a reply goes through the extraction. */
  function ChoiceOfDecision(elements: seq<string>, decision: Result<AiRaison.Decision, string>): Result<Choice, HttpError> {
    match decision
    case Err(e) => Err(HttpError(502, "ai-raison error: " + e))
    case Ok(d) =>
      var extracted := SolutionsOf(AiRaison.Items(d.raw));
      Ok(Choice(extracted.0, extracted.1, elements, EngineReply(d.raw)))
  }

  /** The stations `find_nearby` reports for the origin: the default service tries the public endpoints, limit 5. */
  function NearbyStations(svc: Services): seq<FuelStations.FuelStation> {
    FuelStations.FoundStations(FuelStations.OutcomesAt(FuelStations.Endpoints(None), svc.overpass), 5)
  }

  /** The refuel station used: the first one found, and only when the plan asks for a refuel. */
  function StationFor(plan: RoutingPlan, svc: Services): Option<FuelStations.FuelStation> {
    if plan.needRefuel && NearbyStations(svc) != [] then Some(NearbyStations(svc)[0]) else None
  }

  function Waypoints(req: PlanRequest, station: Option<FuelStations.FuelStation>): seq<LonLat> {
    var origin, destination := LonLat(req.origin.lon, req.origin.lat), LonLat(req.destination.lon, req.destination.lat);
    match station
    case None => [origin, destination]
    case Some(st) => [origin, LonLat(st.lon, st.lat), destination]
  }

  function RouteRequestFor(req: PlanRequest, plan: RoutingPlan, svc: Services): RouteRequest {
    RouteRequest(Waypoints(req, StationFor(plan, svc)), plan.preference, plan.avoidFeatures)
  }

  /** The scenario list `plan` works with: that of `/context`, closed under the two implications. */
  function PlanScenarios(req: PlanRequest, sig: Signals, cfg: Config): seq<string> {
    CloseScenarios(ScenariosFor(req, sig, cfg))
  }

  /** What `plan` returns or raises. */
  function PlanFor(req: PlanRequest, sig: Signals, cfg: Config, svc: Services): Result<PlanResponse, HttpError> {
    var scenarios := PlanScenarios(req, sig, cfg);
    match ChoiceFor(req, scenarios, svc)
    case Err(e) => Err(e)
    case Ok(c) =>
      var plan := CompilePlan(c.solutions);
      match svc.ors(RouteRequestFor(req, plan, svc))
      case RouteFailed(e) => Err(HttpError(502, "ORS routing error: " + e))
      case Routed(route) =>
        var payload := RoutePayload(route.distanceM, route.durationS, route.geometry, plan, StationFor(plan, svc));
        Ok(PlanResponse(c.solutions, scenarios, c.elements, payload, c.raw, c.explanations))
  }

  /** The `/plan` handler. */
  method Plan(req: PlanRequest, sig: Signals, cfg: Config, svc: Services) returns (r: Result<PlanResponse, HttpError>)
    ensures r == PlanFor(req, sig, cfg, svc)
  {
    var ctx := BuildScenarios(req, sig, cfg);
    var scenarios := Close(ctx.scenarios);
    var choice := Choose(req, scenarios, svc);
    if choice.Err? {
      return Err(choice.error);
    }
    var c := choice.value;
    var plan := CompilePlan(c.solutions);
    var station, request := RefuelStop(req, plan, svc);
    match svc.ors(request)
    case RouteFailed(e) =>
      r := Err(HttpError(502, "ORS routing error: " + e));
    case Routed(route) =>
      var payload := RoutePayload(route.distanceM, route.durationS, route.geometry, plan, station);
      r := Ok(PlanResponse(c.solutions, scenarios, c.elements, payload, c.raw, c.explanations));
  }

  /** The two in-place appends of `plan`. */
  method Close(scenarios: seq<string>) returns (r: seq<string>)
    ensures r == CloseScenarios(scenarios)
  {
    r := Append(scenarios, "fuel_critical" in scenarios && "fuel_low" !in scenarios, "fuel_low");
    r := Append(r, "road_closure" in r && "traffic_heavy" !in r, "traffic_heavy");
  }

  /** The waypoints: origin and destination, with the first station found in between when a refuel is planned. */
  method RefuelStop(req: PlanRequest, plan: RoutingPlan, svc: Services)
    returns (station: Option<FuelStations.FuelStation>, request: RouteRequest)
    ensures station == StationFor(plan, svc)
    ensures request == RouteRequestFor(req, plan, svc)
  {
    var coords := [LonLat(req.origin.lon, req.origin.lat), LonLat(req.destination.lon, req.destination.lat)];
    station := None;
    if plan.needRefuel {
      var endpoints := FuelStations.Endpoints(None);
      var stations, fuelDebug := FuelStations.FindNearby(None, FuelStations.OutcomesAt(endpoints, svc.overpass), 5);
      if stations != [] {
        var st := stations[0];
        station := Some(st);
        coords := [LonLat(req.origin.lon, req.origin.lat), LonLat(st.lon, st.lat), LonLat(req.destination.lon, req.destination.lat)];
      }
    }
    request := RouteRequest(coords, plan.preference, plan.avoidFeatures);
  }

  /** The decision step of `plan`, with the engine's errors mapped to a 502. */
  method Choose(req: PlanRequest, scenarios: seq<string>, svc: Services) returns (r: Result<Choice, HttpError>)
    ensures r == ChoiceFor(req, scenarios, svc)
  {
    if req.forcedOption.Some? && req.forcedOption.value != "" {
      return Ok(Choice([req.forcedOption.value], map[], ["forced_option"], ForcedReply));
    }
    var elements := BuildElements(scenarios);
    var decision := AiRaison.Decide(elements, None, svc.engine);
    if decision.Err? {
      return Err(HttpError(502, "ai-raison error: " + decision.error));
    }
    var solutions, explanations := ExtractSolutions(AiRaison.Items(decision.value.raw));
    r := Ok(Choice(solutions, explanations, elements, EngineReply(decision.value.raw)));
  }

  // ---------------------------------------------------------------- properties of /plan

  /** Every failure is a 502 whose detail names the step that failed. */
  lemma PlanErrorStatus(req: PlanRequest, sig: Signals, cfg: Config, svc: Services)
    ensures PlanFor(req, sig, cfg, svc).Err? ==>
      var e := PlanFor(req, sig, cfg, svc).error;
      e.status == 502 && ("ai-raison error: " <= e.detail || "ORS routing error: " <= e.detail)
  {
    ChoiceErrorStatus(req, PlanScenarios(req, sig, cfg), svc);
  }

  /** The decision step fails only with a 502 naming the engine. */
  lemma ChoiceErrorStatus(req: PlanRequest, scenarios: seq<string>, svc: Services)
    ensures ChoiceFor(req, scenarios, svc).Err? ==>
      var e := ChoiceFor(req, scenarios, svc).error;
      e.status == 502 && "ai-raison error: " <= e.detail
  {
  }

  /**
   * Without a forced option, the decision step fails exactly when the engine
   * does not answer with a list: the element list is never rejected.
   */
  lemma DecisionFailsOnlyInEngine(req: PlanRequest, scenarios: seq<string>, svc: Services)
    requires !Forced(req)
    ensures AiRaison.PayloadFor(ElementsFor(scenarios), None).Ok?
    ensures AiRaison.PayloadFor(ElementsFor(scenarios), None).Ok? &&
      var outcome := svc.engine(AiRaison.PayloadFor(ElementsFor(scenarios), None).value);
      (ChoiceFor(req, scenarios, svc).Err? <==> !(outcome.Replied? && outcome.response.Items?))
  {
    ElementsShape(scenarios);
    AiRaison.DecisionSucceeds(ElementsFor(scenarios), None, svc.engine);
  }

  /**
   * A forced option is the only solution, `forced_option` the only element,
   * with no explanations; the engine is not consulted.
   */
  lemma ForcedPlan(req: PlanRequest, sig: Signals, cfg: Config, svc: Services, other: AiRaison.Payload -> AiRaison.EngineOutcome)
    requires Forced(req)
    ensures PlanFor(req, sig, cfg, svc) == PlanFor(req, sig, cfg, svc.(engine := other))
    ensures PlanFor(req, sig, cfg, svc).Ok? ==>
      var resp := PlanFor(req, sig, cfg, svc).value;
      resp.chosenSolutions == [req.forcedOption.value] && resp.aiElements == ["forced_option"] &&
      resp.explanations == map[] && resp.aiRaw == ForcedReply
  {
  }

  /** Re-extracting the solutions from the raw reply gives back what `decide` returned. */
  lemma ReExtractionAgrees(elements: seq<string>, decision: Result<AiRaison.Decision, string>)
    requires decision.Ok? ==>
      && decision.value.solutionLabels == AiRaison.ChosenSolutions(decision.value.raw)
      && decision.value.explanations == AiRaison.Explanations(decision.value.raw)
    ensures ChoiceOfDecision(elements, decision).Ok? <==> decision.Ok?
    ensures decision.Ok? ==>
      var c := ChoiceOfDecision(elements, decision).value;
      && c.elements == elements && c.raw == EngineReply(decision.value.raw)
      && c.solutions == decision.value.solutionLabels && c.explanations == decision.value.explanations
  {
  }

  /** Without a forced option, the decision step returns the engine's solutions for the scenarios' elements. */
  lemma EngineChoice(req: PlanRequest, scenarios: seq<string>, svc: Services)
    requires !Forced(req)
    ensures ChoiceFor(req, scenarios, svc).Ok? ==>
      var c, elements := ChoiceFor(req, scenarios, svc).value, ElementsFor(scenarios);
      var d := AiRaison.DecisionOf(elements, None, svc.engine);
      && c.elements == elements
      && d.Ok? && c.raw == EngineReply(d.value.raw)
      && c.solutions == d.value.solutionLabels && c.explanations == d.value.explanations
      && c.solutions != [] && NoDup(c.solutions)
  {
    var elements := ElementsFor(scenarios);
    AiRaison.DecisionSucceeds(elements, None, svc.engine);
    ReExtractionAgrees(elements, AiRaison.DecisionOf(elements, None, svc.engine));
  }

  /** The answer carries the decision step's result and the closed scenario list. */
  lemma PlanCarriesChoice(req: PlanRequest, sig: Signals, cfg: Config, svc: Services)
    ensures PlanFor(req, sig, cfg, svc).Ok? ==>
      var resp, choice := PlanFor(req, sig, cfg, svc).value, ChoiceFor(req, PlanScenarios(req, sig, cfg), svc);
      && choice.Ok? && resp.scenarios == PlanScenarios(req, sig, cfg)
      && resp.chosenSolutions == choice.value.solutions && resp.explanations == choice.value.explanations
      && resp.aiElements == choice.value.elements && resp.aiRaw == choice.value.raw
  {
  }

  /** Without a forced option, the answer carries the engine's solutions for the scenarios' elements. */
  lemma EnginePlan(req: PlanRequest, sig: Signals, cfg: Config, svc: Services)
    requires !Forced(req)
    ensures PlanFor(req, sig, cfg, svc).Ok? ==>
      var resp, elements := PlanFor(req, sig, cfg, svc).value, ElementsFor(PlanScenarios(req, sig, cfg));
      var d := AiRaison.DecisionOf(elements, None, svc.engine);
      && resp.aiElements == elements
      && d.Ok? && resp.aiRaw == EngineReply(d.value.raw)
      && resp.chosenSolutions == d.value.solutionLabels && resp.explanations == d.value.explanations
      && resp.chosenSolutions != [] && NoDup(resp.chosenSolutions)
  {
    PlanCarriesChoice(req, sig, cfg, svc);
    EngineChoice(req, PlanScenarios(req, sig, cfg), svc);
  }

  /** The answer's scenarios extend those of `/context`, stay free of repeats and satisfy both implications. */
  lemma PlanScenariosShape(req: PlanRequest, sig: Signals, cfg: Config)
    ensures ScenariosFor(req, sig, cfg) <= PlanScenarios(req, sig, cfg)
    ensures NoDup(PlanScenarios(req, sig, cfg))
    ensures "fuel_critical" in PlanScenarios(req, sig, cfg) ==> "fuel_low" in PlanScenarios(req, sig, cfg)
    ensures "road_closure" in PlanScenarios(req, sig, cfg) ==> "traffic_heavy" in PlanScenarios(req, sig, cfg)
  {
  }

  /** The answer's route was asked for with the plan compiled from the chosen solutions. */
  lemma PlanRoute(req: PlanRequest, sig: Signals, cfg: Config, svc: Services)
    ensures PlanFor(req, sig, cfg, svc).Ok? ==>
      var resp := PlanFor(req, sig, cfg, svc).value;
      && resp.route.debugPlan == CompilePlan(resp.chosenSolutions)
      && resp.route.debugStation == StationFor(resp.route.debugPlan, svc)
      && (resp.route.debugStation.Some? ==> "route_refuel" in resp.chosenSolutions)
  {
  }

  /**
   * The waypoints are origin then destination as (lon, lat); the first station
   * found goes between them only when a refuel is planned and a station was found.
   */
  lemma WaypointRule(req: PlanRequest, plan: RoutingPlan, svc: Services)
    ensures var w := RouteRequestFor(req, plan, svc).coordinates;
      && (|w| == 2 || |w| == 3)
      && w[0] == LonLat(req.origin.lon, req.origin.lat)
      && w[|w| - 1] == LonLat(req.destination.lon, req.destination.lat)
      && (|w| == 3 <==> plan.needRefuel && NearbyStations(svc) != [])
      && (|w| == 3 ==> w[1] == LonLat(NearbyStations(svc)[0].lon, NearbyStations(svc)[0].lat))
    ensures RouteRequestFor(req, plan, svc).preference == plan.preference
    ensures RouteRequestFor(req, plan, svc).avoidFeatures == plan.avoidFeatures
  {
  }
}

