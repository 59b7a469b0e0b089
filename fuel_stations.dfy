/**
 * The fuel-station lookup: parses the elements an Overpass server returns into
 * stations, and tries the configured endpoints in order until one answers.
 */
module FuelStations {
  import opened Common

  /** An element's `center`; a coordinate is `None` when missing or null. */
  datatype Center = Center(lat: Option<real>, lon: Option<real>)

  /**
   * One returned element. `center` is `None` when missing or null;
   * `name` is `None` when the element has no tags or its tags have no name.
   */
  datatype OsmElement = OsmElement(lat: Option<real>, lon: Option<real>, center: Option<Center>, name: Option<string>)

  /** The decoded reply; `elements` is `None` when the key is missing. */
  datatype OverpassData = OverpassData(elements: Option<seq<OsmElement>>)

  datatype FuelStation = FuelStation(name: string, lat: real, lon: real)

  /** The debug record of a search. */
  datatype FuelSearchDebug = FuelSearchDebug(ok: bool, endpointUsed: Option<string>, error: Option<string>, count: int)

  /** The outcome of POSTing the query to one endpoint: an error it raised, or the decoded reply. */
  datatype OverpassFetch = FetchFailed(error: string) | Fetched(data: OverpassData)

  const DefaultName := "Fuel station"

  /** The public Overpass endpoints, in the order they are tried. */
  const PublicEndpoints: seq<string> := [
    "https://overpass-api.de/api/interpreter",
    "https://overpass.kumi.systems/api/interpreter",
    "https://overpass.nchc.org.tw/api/interpreter"
  ]

  /** Python's `a or b` on a coordinate: a missing value or a zero falls through to `b`. */
  function OrElse(a: Option<real>, b: Option<real>): Option<real> {
    if a.Some? && a.value != 0.0 then a else b
  }

  function CenterLat(el: OsmElement): Option<real> {
    if el.center.Some? then el.center.value.lat else None
  }

  function CenterLon(el: OsmElement): Option<real> {
    if el.center.Some? then el.center.value.lon else None
  }

  /** The element's latitude: its own `lat` when truthy, else the centre's. */
  function LatOf(el: OsmElement): Option<real> {
    OrElse(el.lat, CenterLat(el))
  }

  function LonOf(el: OsmElement): Option<real> {
    OrElse(el.lon, CenterLon(el))
  }

  predicate HasCoordinates(el: OsmElement) {
    LatOf(el).Some? && LonOf(el).Some?
  }

  /** The station's name: the tag when present and non-empty, else the default. */
  function NameOf(el: OsmElement): string {
    if el.name.Some? && el.name.value != "" then el.name.value else DefaultName
  }

  function StationOf(el: OsmElement): FuelStation
    requires HasCoordinates(el)
  {
    FuelStation(NameOf(el), LatOf(el).value, LonOf(el).value)
  }

  /** The stations of all elements that have coordinates, in element order. */
  function Stations(els: seq<OsmElement>): seq<FuelStation> {
    if els == [] then []
    else
      var last := els[|els| - 1];
      Stations(els[..|els| - 1]) + (if HasCoordinates(last) then [StationOf(last)] else [])
  }

  /** Python's `s[:limit]`, where a negative limit counts from the end. */
  function Prefix<T>(s: seq<T>, limit: int): (r: seq<T>)
    ensures r <= s
    ensures limit >= 0 ==> |r| == if limit < |s| then limit else |s|
    ensures limit < 0 ==> |r| == if |s| + limit > 0 then |s| + limit else 0
  {
    if limit >= 0 then s[..if limit < |s| then limit else |s|]
    else s[..if |s| + limit > 0 then |s| + limit else 0]
  }

  /** What `_parse` returns. */
  function ParseSpec(data: OverpassData, limit: int): seq<FuelStation> {
    Prefix(Stations(data.elements.GetOr([])), limit)
  }

  /** `_parse`: the loop that skips elements without coordinates, then the slice. */
  method Parse(data: OverpassData, limit: int) returns (stations: seq<FuelStation>)
    ensures stations == ParseSpec(data, limit)
  {
    var els := data.elements.GetOr([]);
    stations := [];
    var i := 0;
    while i < |els|
      invariant 0 <= i <= |els|
      invariant stations == Stations(els[..i])
    {
      var el := els[i];
      assert els[..i + 1][..i] == els[..i];
      i := i + 1;
      var lat := if el.lat.Some? && el.lat.value != 0.0 then el.lat else CenterLat(el);
      var lon := if el.lon.Some? && el.lon.value != 0.0 then el.lon else CenterLon(el);
      if lat.None? || lon.None? {
        continue;
      }
      var name := if el.name.Some? && el.name.value != "" then el.name.value else DefaultName;
      stations := stations + [FuelStation(name, lat.value, lon.value)];
    }
    assert els[..i] == els;
    stations := Prefix(stations, limit);
  }

  /** The endpoints in the order they are tried: a configured URL first, when non-empty. */
  function Endpoints(customUrl: Option<string>): (r: seq<string>)
    ensures |r| == if customUrl.Some? && customUrl.value != "" then 4 else 3
  {
    (if customUrl.Some? && customUrl.value != "" then [customUrl.value] else []) + PublicEndpoints
  }

  /** A non-empty custom URL is tried first, then always the three public endpoints in their order. */
  lemma EndpointOrder(customUrl: Option<string>)
    ensures var r := Endpoints(customUrl);
      && r[|r| - 3..] == PublicEndpoints
      && (customUrl.Some? && customUrl.value != "" ==> r[0] == customUrl.value)
      && (!(customUrl.Some? && customUrl.value != "") ==> r == PublicEndpoints)
  {
    var r := Endpoints(customUrl);
    assert r[|r| - 3..] == PublicEndpoints;
  }

  /** The outcome of querying each endpoint in turn, given what each endpoint answers. */
  function OutcomesAt(endpoints: seq<string>, fetch: string -> OverpassFetch): (r: seq<OverpassFetch>)
    ensures |r| == |endpoints|
    ensures forall i :: 0 <= i < |r| ==> r[i] == fetch(endpoints[i])
  {
    if endpoints == [] then [] else [fetch(endpoints[0])] + OutcomesAt(endpoints[1..], fetch)
  }

  /** The index of the first endpoint that answered, if any. */
  function FirstAnswer(outcomes: seq<OverpassFetch>): (k: nat)
    ensures k <= |outcomes|
    ensures forall j :: 0 <= j < k ==> outcomes[j].FetchFailed?
    ensures k < |outcomes| ==> outcomes[k].Fetched?
  {
    if outcomes == [] || outcomes[0].Fetched? then 0 else 1 + FirstAnswer(outcomes[1..])
  }

  /** The stations `find_nearby` reports: those of the first endpoint that answered, else none. */
  function FoundStations(outcomes: seq<OverpassFetch>, limit: int): seq<FuelStation> {
    var k := FirstAnswer(outcomes);
    if k < |outcomes| then ParseSpec(outcomes[k].data, limit) else []
  }

  /**
   * `find_nearby`, given the outcome of each endpoint in turn: the first
   * endpoint that answers decides; when all fail, no stations and the last error.
   */
  method FindNearby(customUrl: Option<string>, outcomes: seq<OverpassFetch>, limit: int)
    returns (stations: seq<FuelStation>, dbg: FuelSearchDebug)
    requires |outcomes| == |Endpoints(customUrl)|
    ensures stations == FoundStations(outcomes, limit)
    ensures var k := FirstAnswer(outcomes);
      k < |outcomes| ==>
        && stations == ParseSpec(outcomes[k].data, limit)
        && dbg == FuelSearchDebug(true, Some(Endpoints(customUrl)[k]), None, |stations|)
    ensures FirstAnswer(outcomes) == |outcomes| ==>
      stations == [] && dbg == FuelSearchDebug(false, None, Some(outcomes[|outcomes| - 1].error), 0)
  {
    var endpoints := Endpoints(customUrl);
    var k, lastErr := TryEndpoints(outcomes);
    if k < |outcomes| {
      stations := Parse(outcomes[k].data, limit);
      dbg := FuelSearchDebug(true, Some(endpoints[k]), None, |stations|);
    } else {
      stations := [];
      dbg := FuelSearchDebug(false, None, lastErr, 0);
    }
  }

  /** The loop over the endpoints: stops at the first that answers, remembering the last error. */
  method TryEndpoints(outcomes: seq<OverpassFetch>) returns (k: nat, lastErr: Option<string>)
    ensures k == FirstAnswer(outcomes)
    ensures k == |outcomes| && k > 0 ==> lastErr == Some(outcomes[k - 1].error)
  {
    lastErr := None;
    k := 0;
    while k < |outcomes|
      invariant 0 <= k <= |outcomes|
      invariant forall j :: 0 <= j < k ==> outcomes[j].FetchFailed?
      invariant lastErr == if k == 0 then None else Some(outcomes[k - 1].error)
    {
      match outcomes[k]
      case Fetched(_) =>
        return;
      case FetchFailed(e) =>
        lastErr := Some(e);
      k := k + 1;
    }
  }

  /** With a non-negative limit, at most `limit` stations come back. */
  lemma ParseBound(data: OverpassData, limit: int)
    requires limit >= 0
    ensures |ParseSpec(data, limit)| <= limit
  {
  }

  /** Every station comes from an element that has coordinates, and keeps that element's data. */
  lemma {:induction false} StationsFromElements(els: seq<OsmElement>, k: nat)
    requires k < |Stations(els)|
    ensures exists i :: 0 <= i < |els| && HasCoordinates(els[i]) && Stations(els)[k] == StationOf(els[i])
  {
    var p := els[..|els| - 1];
    if k < |Stations(p)| {
      StationsFromElements(p, k);
      var i :| 0 <= i < |p| && HasCoordinates(p[i]) && Stations(p)[k] == StationOf(p[i]);
      assert els[i] == p[i];
    } else {
      assert Stations(els)[k] == StationOf(els[|els| - 1]);
    }
  }

  /** Elements without coordinates are skipped: they contribute nothing. */
  lemma {:induction false} SkippedElement(els: seq<OsmElement>, el: OsmElement)
    requires !HasCoordinates(el)
    ensures Stations(els + [el]) == Stations(els)
  {
    assert (els + [el])[..|els|] == els;
  }

  /** An element with coordinates adds its station at the end. */
  lemma {:induction false} KeptElement(els: seq<OsmElement>, el: OsmElement)
    requires HasCoordinates(el)
    ensures Stations(els + [el]) == Stations(els) + [StationOf(el)]
  {
    assert (els + [el])[..|els|] == els;
  }

  /** Direct coordinates win over the centre unless they are zero; a missing name gets the default. */
  lemma CoordinatePriority(el: OsmElement)
    ensures el.lat.Some? && el.lat.value != 0.0 ==> LatOf(el) == el.lat
    ensures el.lat.None? || el.lat == Some(0.0) ==> LatOf(el) == CenterLat(el)
    ensures el.lon.Some? && el.lon.value != 0.0 ==> LonOf(el) == el.lon
    ensures el.lon.None? || el.lon == Some(0.0) ==> LonOf(el) == CenterLon(el)
    ensures el.name.None? || el.name == Some("") ==> NameOf(el) == DefaultName
  {
  }
}
