/** `executeFunction`: a closed switch over four tool names. Each case looks up
    fixed parameter names, left to right, and calls one handler; any other name
    falls through and nothing happens. */
module Dispatch {
  import opened Wrappers
  import opened Catalog
  import opened Parameters
  import opened Urls
  import opened Handlers

  /** What one call of `executeFunction` does before any network traffic:
      nothing (unknown name), fail on the first parameter whose lookup throws,
      or call one handler with the looked-up strings. */
  datatype Invocation =
    | NoOp
    | MissingParameter(name: string)
    | CallWeatherFromLocation(location: string)
    | CallWeatherFromLatLon(latitude: string, longitude: string)
    | CallWebSearch(query: string)
    | CallLatLonToCity(latitude: string, longitude: string)

  /** The names the switch has a case for, in case order. */
  const HandledNames: seq<string> := ["WeatherFromLocation", "WeatherFromLatLon", "WebSearch", "LatLonToCity"]

  /** The parameter names each case looks up, in evaluation order. */
  function ParametersRead(functionName: string): (names: seq<string>)
    ensures |names| > 0 <==> functionName in HandledNames
  {
    if functionName == "WeatherFromLocation" then ["location"]
    else if functionName == "WeatherFromLatLon" then ["latitude", "longitude"]
    else if functionName == "WebSearch" then ["query"]
    else if functionName == "LatLonToCity" then ["latitude", "longitude"]
    else []
  }

  /** `executeFunction(functionName, parameters)`. A lookup that fails stops the
      call before the handler runs, with the other arguments still unread. */
  function ExecuteFunction(functionName: string, parameters: seq<FunctionParameter>): (r: Invocation)
    ensures r == NoOp <==> functionName !in HandledNames
    ensures r.MissingParameter? ==> r.name in ParametersRead(functionName) && !HasParameter(r.name, parameters)
  {
    if functionName == "WeatherFromLocation" then
      match GetValueOfParameter("location", parameters)
      case None => MissingParameter("location")
      case Some(location) => CallWeatherFromLocation(location)
    else if functionName == "WeatherFromLatLon" then
      match GetValueOfParameter("latitude", parameters)
      case None => MissingParameter("latitude")
      case Some(latitude) =>
        match GetValueOfParameter("longitude", parameters)
        case None => MissingParameter("longitude")
        case Some(longitude) => CallWeatherFromLatLon(latitude, longitude)
    else if functionName == "WebSearch" then
      match GetValueOfParameter("query", parameters)
      case None => MissingParameter("query")
      case Some(query) => CallWebSearch(query)
    else if functionName == "LatLonToCity" then
      match GetValueOfParameter("latitude", parameters)
      case None => MissingParameter("latitude")
      case Some(latitude) =>
        match GetValueOfParameter("longitude", parameters)
        case None => MissingParameter("longitude")
        case Some(longitude) => CallLatLonToCity(latitude, longitude)
    else
      NoOp
  }

  /** The URLs an invocation requests, in order. Only the composed tool reads
      a response (the geocoding answer) before deciding what to request next. */
  function Requests(invocation: Invocation, geocoded: GeocodeResponse): (requests: seq<string>)
    ensures requests == [] <==> invocation.NoOp? || invocation.MissingParameter?
    ensures |requests| <= 2
  {
    match invocation
    case NoOp => []
    case MissingParameter(_) => []
    case CallWeatherFromLocation(location) => WeatherFromLocationRequests(location, geocoded)
    case CallWeatherFromLatLon(latitude, longitude) => WeatherFromLatLonRequests(latitude, longitude)
    case CallWebSearch(query) => WebSearchRequests(query)
    case CallLatLonToCity(latitude, longitude) => LatLonToCityRequests(latitude, longitude)
  }

  /** True when every parameter the case reads has a binding. */
  predicate Supplied(functionName: string, parameters: seq<FunctionParameter>)
  {
    forall n :: n in ParametersRead(functionName) ==> HasParameter(n, parameters)
  }

  /** A known name with all its parameters supplied calls its handler; a known
      name with one missing throws; an unknown name does nothing. */
  lemma CallsHandlerExactlyWhenSupplied(functionName: string, parameters: seq<FunctionParameter>)
    ensures (ExecuteFunction(functionName, parameters) != NoOp && !ExecuteFunction(functionName, parameters).MissingParameter?)
            <==> functionName in HandledNames && Supplied(functionName, parameters)
  {
    var r := ExecuteFunction(functionName, parameters);
    if functionName in HandledNames && Supplied(functionName, parameters) {
      assert forall n :: n in ParametersRead(functionName) ==> GetValueOfParameter(n, parameters).Some?;
    }
  }

  /** An unknown name, CityToLatLon included, requests nothing. CityToLatLon
      has a descriptor but no case in the switch. */
  lemma UnknownNameDoesNothing(functionName: string, parameters: seq<FunctionParameter>, geocoded: GeocodeResponse)
    requires functionName !in HandledNames
    ensures ExecuteFunction(functionName, parameters) == NoOp
    ensures Requests(ExecuteFunction(functionName, parameters), geocoded) == []
  {
  }

  lemma CityToLatLonIsNotDispatched(parameters: seq<FunctionParameter>)
    ensures CityToLatLonTool in DeclaredTools
    ensures ExecuteFunction(CityToLatLonTool.name, parameters) == NoOp
  {
  }

  /** The two-coordinate tools pass the first "latitude" binding as the first
      argument and the first "longitude" binding as the second. */
  lemma CoordinatesInOrder(functionName: string, parameters: seq<FunctionParameter>, i: int, j: int)
    requires functionName == "WeatherFromLatLon" || functionName == "LatLonToCity"
    requires IsFirstMatch("latitude", parameters, i) && IsFirstMatch("longitude", parameters, j)
    ensures functionName == "WeatherFromLatLon" ==>
      ExecuteFunction(functionName, parameters) == CallWeatherFromLatLon(parameters[i].parameterValue, parameters[j].parameterValue)
    ensures functionName == "LatLonToCity" ==>
      ExecuteFunction(functionName, parameters) == CallLatLonToCity(parameters[i].parameterValue, parameters[j].parameterValue)
  {
    FirstMatchDecides("latitude", parameters, i);
    FirstMatchDecides("longitude", parameters, j);
  }

  /** The single-argument tools pass the first binding of their one name. */
  lemma SingleArgument(parameters: seq<FunctionParameter>, i: int)
    ensures IsFirstMatch("location", parameters, i) ==>
      ExecuteFunction("WeatherFromLocation", parameters) == CallWeatherFromLocation(parameters[i].parameterValue)
    ensures IsFirstMatch("query", parameters, i) ==>
      ExecuteFunction("WebSearch", parameters) == CallWebSearch(parameters[i].parameterValue)
  {
    if IsFirstMatch("location", parameters, i) {
      FirstMatchDecides("location", parameters, i);
    }
    if IsFirstMatch("query", parameters, i) {
      FirstMatchDecides("query", parameters, i);
    }
  }

  /** Lookups run left to right: with no latitude the call fails on
      "latitude" whatever the longitude, and with a latitude but no longitude
      it fails on "longitude". */
  lemma FirstMissingParameterReported(functionName: string, parameters: seq<FunctionParameter>)
    requires functionName == "WeatherFromLatLon" || functionName == "LatLonToCity"
    ensures !HasParameter("latitude", parameters) ==>
      ExecuteFunction(functionName, parameters) == MissingParameter("latitude")
    ensures HasParameter("latitude", parameters) && !HasParameter("longitude", parameters) ==>
      ExecuteFunction(functionName, parameters) == MissingParameter("longitude")
  {
  }

  /** Each case depends only on the bindings whose names it reads: two lists
      that agree on those bindings give the same invocation. */
  lemma ReadsOnlyItsParameters(functionName: string, ps: seq<FunctionParameter>, qs: seq<FunctionParameter>)
    requires forall n :: n in ParametersRead(functionName) ==> Matching(n, ps) == Matching(n, qs)
    ensures ExecuteFunction(functionName, ps) == ExecuteFunction(functionName, qs)
  {
    var names := ParametersRead(functionName);
    if |names| > 0 {
      assert names[0] in names;
      SameMatchesSameValue(names[0], ps, qs);
    }
    if |names| > 1 {
      assert names[1] in names;
      SameMatchesSameValue(names[1], ps, qs);
    }
  }

  /** The switch and the published catalog agree: the handled names are the
      published tool names in the same order, and each case reads exactly the
      parameters its descriptor declares, in declaration order. */
  lemma DispatcherMatchesCatalog()
    ensures ToolNames(PublishedTools) == HandledNames
    ensures forall t :: t in PublishedTools ==> ParametersRead(t.name) == ParameterNames(t.parameters)
    ensures ParametersRead(CityToLatLonTool.name) == []
  {
    PublishedCatalog();
    PublishedParameters();
  }

  /** Requests per call: none for an unknown name or a missing parameter, one
      for three of the tools, and one or two for the composed tool. */
  lemma RequestCounts(functionName: string, parameters: seq<FunctionParameter>, geocoded: GeocodeResponse)
    ensures var n := |Requests(ExecuteFunction(functionName, parameters), geocoded)|;
      && (n == 0 <==> functionName !in HandledNames || !Supplied(functionName, parameters))
      && (functionName in HandledNames && functionName != "WeatherFromLocation" && Supplied(functionName, parameters) ==> n == 1)
      && (functionName == "WeatherFromLocation" && Supplied(functionName, parameters) ==>
            n == if CityToLatLon(geocoded).Some? then 2 else 1)
  {
    var r := ExecuteFunction(functionName, parameters);
    CallsHandlerExactlyWhenSupplied(functionName, parameters);
    assert functionName == "WeatherFromLocation" && Supplied(functionName, parameters) ==> r.CallWeatherFromLocation?;
    assert r.CallWeatherFromLocation? ==> functionName == "WeatherFromLocation";
  }

  // What a fully supplied call requests: the documented URL with the first
  // matching binding values substituted unchanged.

  lemma WeatherFromLocationCallRequests(parameters: seq<FunctionParameter>, i: int, geocoded: GeocodeResponse)
    requires IsFirstMatch("location", parameters, i)
    ensures Requests(ExecuteFunction("WeatherFromLocation", parameters), geocoded)
         == WeatherFromLocationRequests(parameters[i].parameterValue, geocoded)
  {
    SingleArgument(parameters, i);
  }

  lemma WebSearchCallRequests(parameters: seq<FunctionParameter>, i: int, geocoded: GeocodeResponse)
    requires IsFirstMatch("query", parameters, i)
    ensures Requests(ExecuteFunction("WebSearch", parameters), geocoded) == [SearchUrl(parameters[i].parameterValue)]
  {
    SingleArgument(parameters, i);
  }

  lemma WeatherFromLatLonCallRequests(parameters: seq<FunctionParameter>, i: int, j: int, geocoded: GeocodeResponse)
    requires IsFirstMatch("latitude", parameters, i) && IsFirstMatch("longitude", parameters, j)
    ensures Requests(ExecuteFunction("WeatherFromLatLon", parameters), geocoded)
         == [ForecastUrl(parameters[i].parameterValue, parameters[j].parameterValue)]
  {
    CoordinatesInOrder("WeatherFromLatLon", parameters, i, j);
  }

  lemma LatLonToCityCallRequests(parameters: seq<FunctionParameter>, i: int, j: int, geocoded: GeocodeResponse)
    requires IsFirstMatch("latitude", parameters, i) && IsFirstMatch("longitude", parameters, j)
    ensures Requests(ExecuteFunction("LatLonToCity", parameters), geocoded)
         == [ReverseUrl(parameters[i].parameterValue, parameters[j].parameterValue)]
  {
    CoordinatesInOrder("LatLonToCity", parameters, i, j);
  }

  /** With latitude 52.52 and longitude 13.405 that URL carries
      latitude=52.52&longitude=13.405. */
  lemma ForecastExample()
    ensures QueryParams(ForecastUrl("52.52", "13.405")) ==
              [QueryParam("latitude", "52.52"), QueryParam("longitude", "13.405")] + ForecastFixedParams
  {
    var latitude, longitude := "52.52", "13.405";
    assert '&' !in latitude && '&' !in longitude;
    ForecastUrlReadsBack(latitude, longitude);
  }
}
