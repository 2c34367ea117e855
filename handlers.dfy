/** The four network handlers of tools.ts with the network taken out: each
    handler becomes the list of URLs it requests, and the one response the
    code inspects (the forward-geocoding answer) becomes an input value. */
module Handlers {
  import opened Wrappers
  import opened Urls

  /** One element of the geocoding answer; a field is `None` when absent. */
  datatype GeoEntry = GeoEntry(lat: Option<string>, lon: Option<string>)

  /** What `await fetch(...)` and `await output.json()` produce for the
      geocoding request: a transport or parse failure (an exception), a parsed
      value that is not an array (`null`, an object, ...), or an array. */
  datatype GeocodeResponse = Failed | NotAnArray | Entries(entries: seq<GeoEntry>)

  /** JavaScript truthiness of a geocoding field, reduced to "present and not
      the empty string". */
  predicate Truthy(field: Option<string>)
  {
    field.Some? && field.value != ""
  }

  /** The test `json && json.length > 0 && json[0].lat && json[0].lon`. */
  predicate HasCoordinates(response: GeocodeResponse)
  {
    response.Entries? && |response.entries| > 0 && Truthy(response.entries[0].lat) && Truthy(response.entries[0].lon)
  }

  /** The result of `CityToLatLon` given the geocoding answer: the pair
      `[json[0].lat, json[0].lon]`, or `None` for the `null` sentinel. A failed
      request is caught and also gives `None`. */
  function CityToLatLon(response: GeocodeResponse): (latlon: Option<(string, string)>)
    ensures latlon.Some? ==> latlon.value.0 != "" && latlon.value.1 != ""
    ensures latlon.Some? ==> response.Entries? && |response.entries| > 0
  {
    if HasCoordinates(response) then
      Some((response.entries[0].lat.value, response.entries[0].lon.value))
    else
      None
  }

  /** The sentinel is returned exactly when the test fails, and otherwise the
      pair holds the first entry's latitude and then its longitude. */
  lemma CityToLatLonCases(response: GeocodeResponse)
    ensures CityToLatLon(response).None? <==> !HasCoordinates(response)
    ensures CityToLatLon(response).Some? ==>
      && Some(CityToLatLon(response).value.0) == response.entries[0].lat
      && Some(CityToLatLon(response).value.1) == response.entries[0].lon
  {
  }

  /** Errors never propagate: a failed request, a non-array answer and an
      empty array all give the sentinel, as does a first entry with a missing
      or empty coordinate. */
  lemma CityToLatLonSentinel(rest: seq<GeoEntry>, lat: Option<string>, lon: Option<string>)
    ensures CityToLatLon(Failed) == None
    ensures CityToLatLon(NotAnArray) == None
    ensures CityToLatLon(Entries([])) == None
    ensures !Truthy(lat) || !Truthy(lon) ==> CityToLatLon(Entries([GeoEntry(lat, lon)] + rest)) == None
  {
  }

  /** Only the first entry is looked at: the entries after it never change the result. */
  lemma CityToLatLonFirstEntryOnly(first: GeoEntry, rest: seq<GeoEntry>)
    ensures CityToLatLon(Entries([first] + rest)) == CityToLatLon(Entries([first]))
  {
  }

  /** `CityToLatLon(city)` requests the geocoding URL for the city, once. */
  function CityToLatLonRequests(city: string): (requests: seq<string>)
    ensures |requests| == 1 && Endpoint(requests[0]) == GeocodeEndpoint
    ensures '&' !in city ==> QueryParams(requests[0]) == [QueryParam("q", city), QueryParam("format", "json")]
  {
    GeocodeUrlReadsBack(city);
    [GeocodeUrl(city)]
  }

  /** `LatLonToCity(latitude, longitude)` requests one reverse-geocoding URL. */
  function LatLonToCityRequests(latitude: string, longitude: string): (requests: seq<string>)
    ensures |requests| == 1 && Endpoint(requests[0]) == ReverseEndpoint
    ensures '&' !in latitude && '&' !in longitude ==>
      QueryParams(requests[0]) == [QueryParam("lat", latitude), QueryParam("lon", longitude), QueryParam("format", "json")]
  {
    ReverseUrlReadsBack(latitude, longitude);
    [ReverseUrl(latitude, longitude)]
  }

  /** `WeatherFromLatLon(latitude, longitude)` requests one forecast URL. */
  function WeatherFromLatLonRequests(latitude: string, longitude: string): (requests: seq<string>)
    ensures |requests| == 1 && Endpoint(requests[0]) == ForecastEndpoint
    ensures '&' !in latitude && '&' !in longitude ==>
      QueryParams(requests[0]) == [QueryParam("latitude", latitude), QueryParam("longitude", longitude)] + ForecastFixedParams
  {
    ForecastUrlReadsBack(latitude, longitude);
    [ForecastUrl(latitude, longitude)]
  }

  /** `WebSearch(query)` requests one search URL. */
  function WebSearchRequests(query: string): (requests: seq<string>)
    ensures |requests| == 1 && Endpoint(requests[0]) == SearchEndpoint
    ensures '&' !in query ==> QueryParams(requests[0]) == [QueryParam("q", query), QueryParam("format", "json")]
  {
    SearchUrlReadsBack(query);
    [SearchUrl(query)]
  }

  /** `WeatherFromLocation(location)`: geocode, then request the forecast only
      when geocoding gave coordinates, with element 0 as the latitude and
      element 1 as the longitude. */
  function WeatherFromLocationRequests(location: string, geocoded: GeocodeResponse): (requests: seq<string>)
    ensures |requests| >= 1 && requests[..1] == CityToLatLonRequests(location)
    ensures |requests| == 2 <==> CityToLatLon(geocoded).Some?
    ensures |requests| == 1 <==> CityToLatLon(geocoded).None?
  {
    CityToLatLonRequests(location) +
      match CityToLatLon(geocoded)
      case Some(latlon) => WeatherFromLatLonRequests(latlon.0, latlon.1)
      case None => []
  }

  lemma EndpointsDiffer()
    ensures GeocodeEndpoint != ForecastEndpoint
  {
    assert GeocodeEndpoint[8] != ForecastEndpoint[8];
  }

  /** The weather request of the composed tool: there is a forecast request
      exactly when geocoding succeeded, it is the second request, and it
      carries the geocoded coordinates in order. */
  lemma WeatherFromLocationForecast(location: string, geocoded: GeocodeResponse)
    ensures (exists k :: 0 <= k < |WeatherFromLocationRequests(location, geocoded)| &&
               Endpoint(WeatherFromLocationRequests(location, geocoded)[k]) == ForecastEndpoint)
            <==> CityToLatLon(geocoded).Some?
    ensures CityToLatLon(geocoded).Some? ==>
      WeatherFromLocationRequests(location, geocoded)[1] ==
        ForecastUrl(CityToLatLon(geocoded).value.0, CityToLatLon(geocoded).value.1)
  {
    var requests := WeatherFromLocationRequests(location, geocoded);
    EndpointsDiffer();
    assert Endpoint(requests[0]) == GeocodeEndpoint;
  }
}
