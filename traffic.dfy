/**
 * The traffic-incident lookup: turns the incidents reported inside a bounding
 * box into the scenario tags `traffic_heavy` and `road_closure`.
 */
module Traffic {
  import opened Common
  import opened Strings
  import opened Seqs

  /** One event of an incident; `description` is `None` when missing or null. */
  datatype Event = Event(description: Option<string>)

  /** An incident; `None` stands for a missing or null `properties` or `events`. */
  datatype Incident = Incident(properties: Option<Properties>)
  datatype Properties = Properties(events: Option<seq<Event>>)

  /** The decoded reply; `incidents` is `None` when the key is missing or null. */
  datatype TrafficData = TrafficData(incidents: Option<seq<Incident>>)

  /** The HTTP exchange: a failure (transport error or non-success status) with its message, or the reply. */
  datatype TrafficFetch =
    | FetchFailed(error: string, endpoint: string)
    | Fetched(data: TrafficData, endpoint: string)

  /** `TomTomTrafficResult` without the raw payload. */
  datatype TrafficResult = TrafficResult(scenarios: seq<string>, error: Option<string>, endpoint: string)

  function EventsOf(inc: Incident): seq<Event> {
    if inc.properties.Some? then inc.properties.value.events.GetOr([]) else []
  }

  function IncidentsOf(data: TrafficData): seq<Incident> {
    data.incidents.GetOr([])
  }

  /** An event announces a closure when its lower-cased description mentions one. */
  predicate MentionsClosure(ev: Event) {
    var desc := Lower(ev.description.GetOr(""));
    Contains(desc, "closed") || Contains(desc, "closure") || Contains(desc, "road closed")
  }

  predicate IncidentMentionsClosure(inc: Incident) {
    exists k :: 0 <= k < |EventsOf(inc)| && MentionsClosure(EventsOf(inc)[k])
  }

  predicate AnyClosure(incidents: seq<Incident>) {
    exists i :: 0 <= i < |incidents| && IncidentMentionsClosure(incidents[i])
  }

  /** The tags a list of incidents yields: any incident means heavy traffic; a closure keyword adds a closure. */
  function IncidentTags(incidents: seq<Incident>): (t: seq<string>)
    ensures NoDup(t) && (forall x :: x in t ==> x == "traffic_heavy" || x == "road_closure")
    ensures "traffic_heavy" in t <==> incidents != []
    ensures "road_closure" in t <==> AnyClosure(incidents)
  {
    if incidents == [] then []
    else ["traffic_heavy"] + (if AnyClosure(incidents) then ["road_closure"] else [])
  }

  /** The tags the lookup contributes for a fetch outcome: none when the fetch failed. */
  function FetchTags(fetch: TrafficFetch): (t: seq<string>)
    ensures fetch.FetchFailed? ==> t == []
    ensures fetch.Fetched? ==> ("traffic_heavy" in t <==> IncidentsOf(fetch.data) != [])
    ensures fetch.Fetched? ==> ("road_closure" in t <==> AnyClosure(IncidentsOf(fetch.data)))
  {
    if fetch.FetchFailed? then [] else IncidentTags(IncidentsOf(fetch.data))
  }

  /** The inner loop over one incident's events, stopping at the first closure. */
  method ScanEvents(events: seq<Event>) returns (found: bool)
    ensures found <==> exists k :: 0 <= k < |events| && MentionsClosure(events[k])
  {
    found := false;
    var k := 0;
    while k < |events|
      invariant 0 <= k <= |events|
      invariant forall j :: 0 <= j < k ==> !MentionsClosure(events[j])
    {
      if MentionsClosure(events[k]) {
        found := true;
        break;
      }
      k := k + 1;
    }
  }

  /** The outer loop over the incidents, stopping once a closure has been seen. */
  method ScanIncidents(incidents: seq<Incident>) returns (closure: bool)
    ensures closure <==> AnyClosure(incidents)
  {
    closure := false;
    var i := 0;
    while i < |incidents|
      invariant 0 <= i <= |incidents|
      invariant forall j :: 0 <= j < i ==> !IncidentMentionsClosure(incidents[j])
    {
      var inc := incidents[i];
      var events := if inc.properties.Some? then inc.properties.value.events.GetOr([]) else [];
      assert events == EventsOf(inc);
      closure := ScanEvents(events);
      if closure {
        break;
      }
      i := i + 1;
    }
  }

  /** `incidents_bbox` once the HTTP exchange is given: classification, then the `seen`/`out` dedup. */
  method IncidentsBbox(fetch: TrafficFetch) returns (r: TrafficResult)
    ensures r.scenarios == FetchTags(fetch)
    ensures r.error == (if fetch.FetchFailed? then Some(fetch.error) else None)
    ensures r.endpoint == fetch.endpoint
  {
    if fetch.FetchFailed? {
      return TrafficResult([], Some(fetch.error), fetch.endpoint);
    }
    var scenarios: seq<string> := [];
    var incidents := fetch.data.incidents.GetOr([]);
    if incidents != [] {
      scenarios := scenarios + ["traffic_heavy"];
      var closure := ScanIncidents(incidents);
      if closure {
        scenarios := scenarios + ["road_closure"];
      }
    }
    assert scenarios == IncidentTags(incidents);
    var out := RemoveDuplicates(scenarios);
    DistinctOfNoDup(scenarios);
    r := TrafficResult(out, None, fetch.endpoint);
  }

  /** No incidents, or no `incidents` key at all, gives no tags. */
  lemma NoIncidentsNoTags(data: TrafficData)
    requires data.incidents.None? || data.incidents == Some([])
    ensures IncidentTags(IncidentsOf(data)) == []
  {
  }

  /**
   * The tags are `traffic_heavy` first when there is any incident, a subset of
   * the two traffic tags without repeats, and a closure always comes with heavy traffic.
   */
  lemma IncidentTagsShape(incidents: seq<Incident>)
    ensures var t := IncidentTags(incidents);
      && NoDup(t) && |t| <= 2
      && (forall x :: x in t ==> x == "traffic_heavy" || x == "road_closure")
      && (incidents != [] ==> t[0] == "traffic_heavy")
      && ("road_closure" in t ==> "traffic_heavy" in t)
      && ("traffic_heavy" in t <==> incidents != [])
  {
  }

  /** `road_closure` is reported exactly when some event description mentions `closed` or `closure`. */
  lemma RoadClosureIff(incidents: seq<Incident>)
    ensures "road_closure" in IncidentTags(incidents) <==>
      exists i, k :: 0 <= i < |incidents| && 0 <= k < |EventsOf(incidents[i])| &&
        (Contains(Lower(EventsOf(incidents[i])[k].description.GetOr("")), "closed") ||
         Contains(Lower(EventsOf(incidents[i])[k].description.GetOr("")), "closure"))
  {
    forall i, k | 0 <= i < |incidents| && 0 <= k < |EventsOf(incidents[i])|
      ensures MentionsClosure(EventsOf(incidents[i])[k]) <==>
        (Contains(Lower(EventsOf(incidents[i])[k].description.GetOr("")), "closed") ||
         Contains(Lower(EventsOf(incidents[i])[k].description.GetOr("")), "closure"))
    {
      RoadClosedMentionsClosed(Lower(EventsOf(incidents[i])[k].description.GetOr("")));
    }
  }

  /** The third keyword adds nothing: whatever mentions "road closed" mentions "closed". */
  lemma RoadClosedMentionsClosed(desc: string)
    ensures Contains(desc, "road closed") ==> Contains(desc, "closed")
  {
    if Contains(desc, "road closed") {
      ContainsInner(desc, "road closed", 5, 6);
      assert "road closed"[5..11] == "closed";
    }
  }

  /** A failed fetch yields no tags and an error. */
  lemma FailureShape(error: string, endpoint: string)
    ensures FetchTags(FetchFailed(error, endpoint)) == []
  {
  }
}
