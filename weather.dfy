/** The weather lookup: turns the current-weather condition into weather scenario tags. */
module Weather {
  import opened Common
  import opened Strings
  import opened Seqs

  /** One entry of the reply's `weather` list; `main` is `None` when missing or null. */
  datatype WeatherEntry = WeatherEntry(main: Option<string>)

  /** The decoded reply; `weather` is `None` when the key is missing or is not a list. */
  datatype WeatherData = WeatherData(weather: Option<seq<WeatherEntry>>)

  /** `WeatherContext`: the tags and the stripped condition they were read from. */
  datatype WeatherContext = WeatherContext(scenarios: seq<string>, rawMain: Option<string>)

  /** The weather tags, in the order the lookup appends them. */
  const WeatherTags: seq<string> := ["rain", "snow", "fog", "storm"]

  /** The stripped `main` of the first entry, or `None` when there is no entry. */
  function RawMain(data: WeatherData): Option<string> {
    if data.weather.Some? && data.weather.value != [] then Some(Strip(data.weather.value[0].main.GetOr("")))
    else None
  }

  /** The four successive conditional appends, on the lower-cased condition. */
  function ConditionTags(lower: string): seq<string> {
    AppendTags(Contains(lower, "rain") || Contains(lower, "drizzle"),
               Contains(lower, "snow"),
               Contains(lower, "fog") || Contains(lower, "mist") || Contains(lower, "haze"),
               Contains(lower, "thunderstorm"))
  }

  /** The appends themselves, given which of the four conditions hold. */
  function AppendTags(rain: bool, snow: bool, fog: bool, storm: bool): seq<string> {
    (if rain then ["rain"] else []) + (if snow then ["snow"] else []) +
    (if fog then ["fog"] else []) + (if storm then ["storm"] else [])
  }

  /** `get_scenarios` once the HTTP reply is given. */
  function GetScenarios(data: WeatherData): (w: WeatherContext)
    ensures w.rawMain == RawMain(data)
    ensures var lower := Lower(RawMain(data).GetOr(""));
      && ("rain" in w.scenarios <==> Contains(lower, "rain") || Contains(lower, "drizzle"))
      && ("snow" in w.scenarios <==> Contains(lower, "snow"))
      && ("fog" in w.scenarios <==> Contains(lower, "fog") || Contains(lower, "mist") || Contains(lower, "haze"))
      && ("storm" in w.scenarios <==> Contains(lower, "thunderstorm"))
  {
    var main := RawMain(data);
    TagsByKeyword(Lower(main.GetOr("")));
    WeatherContext(ConditionTags(Lower(main.GetOr(""))), main)
  }

  /** The position of a weather tag in the canonical order. */
  function Rank(tag: string): int {
    if tag == "rain" then 0 else if tag == "snow" then 1 else if tag == "fog" then 2 else 3
  }

  predicate RankOrdered(t: seq<string>) {
    forall i, j :: 0 <= i < j < |t| ==> Rank(t[i]) < Rank(t[j])
  }

  /** Which keyword of the lower-cased condition produces which tag. */
  lemma TagsByKeyword(lower: string)
    ensures "rain" in ConditionTags(lower) <==> Contains(lower, "rain") || Contains(lower, "drizzle")
    ensures "snow" in ConditionTags(lower) <==> Contains(lower, "snow")
    ensures "fog" in ConditionTags(lower) <==> Contains(lower, "fog") || Contains(lower, "mist") || Contains(lower, "haze")
    ensures "storm" in ConditionTags(lower) <==> Contains(lower, "thunderstorm")
  {
    AppendTagsMembers(Contains(lower, "rain") || Contains(lower, "drizzle"),
                      Contains(lower, "snow"),
                      Contains(lower, "fog") || Contains(lower, "mist") || Contains(lower, "haze"),
                      Contains(lower, "thunderstorm"));
  }

  lemma AppendTagsMembers(rain: bool, snow: bool, fog: bool, storm: bool)
    ensures var t := AppendTags(rain, snow, fog, storm);
      && ("rain" in t <==> rain) && ("snow" in t <==> snow) && ("fog" in t <==> fog) && ("storm" in t <==> storm)
  {
    assert Rank("rain") == 0 && Rank("snow") == 1 && Rank("fog") == 2 && Rank("storm") == 3;
  }

  /** The tags are always in the order rain, snow, fog, storm. */
  lemma AppendTagsOrdered(rain: bool, snow: bool, fog: bool, storm: bool)
    ensures RankOrdered(AppendTags(rain, snow, fog, storm))
  {
  }

  /** The tags are weather tags, without repeats, always in the order rain, snow, fog, storm. */
  lemma TagsInCanonicalOrder(rain: bool, snow: bool, fog: bool, storm: bool)
    ensures var t := AppendTags(rain, snow, fog, storm);
      && (forall x :: x in t ==> x in WeatherTags)
      && NoDup(t)
      && RankOrdered(t)
  {
    AppendTagsOrdered(rain, snow, fog, storm);
    var t := AppendTags(rain, snow, fog, storm);
    forall i, j | 0 <= i < j < |t| ensures t[i] != t[j] {
      assert Rank(t[i]) < Rank(t[j]);
    }
  }

  /** Whatever the reply, the tags are weather tags, without repeats, in canonical order. */
  lemma WeatherTagsShape(data: WeatherData)
    ensures var t := GetScenarios(data).scenarios;
      (forall x :: x in t ==> x in WeatherTags) && NoDup(t) && RankOrdered(t)
  {
    var lower := Lower(RawMain(data).GetOr(""));
    TagsInCanonicalOrder(Contains(lower, "rain") || Contains(lower, "drizzle"),
                         Contains(lower, "snow"),
                         Contains(lower, "fog") || Contains(lower, "mist") || Contains(lower, "haze"),
                         Contains(lower, "thunderstorm"));
  }

  /** A missing or empty `weather` list gives no condition and no tags. */
  lemma NoWeatherListNoTags(data: WeatherData)
    requires data.weather.None? || data.weather == Some([])
    ensures GetScenarios(data) == WeatherContext([], None)
  {
    assert RawMain(data) == None && Lower("") == "";
    assert ConditionTags("") == AppendTags(false, false, false, false);
  }

  /** Only the first entry is read; its `main` is stripped before it is classified and reported. */
  lemma OnlyFirstEntryCounts(first: WeatherEntry, rest: seq<WeatherEntry>)
    ensures GetScenarios(WeatherData(Some([first] + rest))) == GetScenarios(WeatherData(Some([first])))
    ensures GetScenarios(WeatherData(Some([first] + rest))).rawMain == Some(Strip(first.main.GetOr("")))
  {
  }
}
