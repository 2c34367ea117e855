# Tool catalog and tool executor of the function-calling demo, in Dafny

The modelled program (`2024-07-10-functioncalling-with-tools/tools.ts`) gives a language
model a fixed catalog of tools: weather by place name, weather by coordinates, web search,
reverse geocoding, plus a geocoding tool that is declared but not published. It also has
an executor. The executor takes a tool name and a list of name/value bindings. For a known
name it looks up that case's values by name and calls one handler; an unknown name or a missing value calls none. Each handler makes one HTTP GET,
except WeatherFromLocation, which geocodes first and requests the forecast only when it
gets coordinates.

This model keeps the decision logic and removes the network:

- `Catalog`: the five tool descriptors, the published list of four, and facts about them.
- `Parameters`: `getValueOfParameter`, the first binding with a given name (`filter(...)[0]`).
  A missing name, which makes the original throw a TypeError, becomes `None`.
- `Urls`: the four URL templates, built by plain concatenation with no encoding. A small
  reference reading of URLs goes with them: the endpoint is everything before the first `?`,
  the query is split on `&`, and each entry is split at its first `=`. Lemmas show that each
  template puts every argument under its own key, unchanged, when the argument contains no
  `&`. Another lemma shows what happens when it does.
- `Handlers`: the handlers, each written as the list of URLs it requests. The geocoding
  answer becomes an input value: a failure, a non-array, or an array of entries with
  optional `lat`/`lon`. `CityToLatLon` classifies that input into a pair or the `null`
  sentinel. `WeatherFromLocation` requests the forecast only when it gets a pair.
- `Dispatch`: `executeFunction` as a function to an `Invocation`. The outcomes are: no-op
  for an unknown name, a failure on the first missing parameter, or a call of one handler
  with its arguments. `Requests` maps an invocation to the URLs it requests.

Two points of the code that the model keeps:
- `CityToLatLon` tests the `lat` and `lon` fields for truthiness, so an empty string also
  gives the sentinel (tools.ts:111).
- The four dispatched handlers and `executeFunction` resolve to `undefined`
  (tools.ts:123-165, 192-207); only `CityToLatLon` returns a value. The model therefore
  keeps the invocation and the requests, and no return value of a dispatched call.

## Model

| member | source | states |
|---|---|---|
| Catalog.PublishedCatalog | 2024-07-10-functioncalling-with-tools/tools.ts:167-174 | the published list has exactly four tools, named WeatherFromLocation, WeatherFromLatLon, WebSearch, LatLonToCity in that order; the names are distinct, CityToLatLon is not among them, and every parameter is required |
| Catalog.DeclaredButUnpublished | 2024-07-10-functioncalling-with-tools/tools.ts:20-174 | the five declared descriptors have distinct names and only required parameters; the published list is a subset of them, and the only declared tool left out is CityToLatLon |
| Catalog.PublishedParameters | 2024-07-10-functioncalling-with-tools/tools.ts:20-95 | each descriptor declares its parameter names in this order: location; latitude, longitude; query; latitude, longitude; city |
| Parameters.Matching | 2024-07-10-functioncalling-with-tools/tools.ts:184 | the filter keeps only bindings with the name, keeps every binding with the name, is never longer than its input, and is empty exactly when no binding has the name |
| Parameters.GetValueOfParameter | 2024-07-10-functioncalling-with-tools/tools.ts:180-186 | the lookup fails (None) exactly when no binding has the name; a returned value is the value of some binding with that name |
| Parameters.MatchingAppend | 2024-07-10-functioncalling-with-tools/tools.ts:184 | filtering a concatenation gives the concatenation of the filtered parts |
| Parameters.FirstMatchDecides | 2024-07-10-functioncalling-with-tools/tools.ts:184-185 | when index i holds the first binding with the name, the lookup returns that binding's value |
| Parameters.FoundAtFirstMatch | 2024-07-10-functioncalling-with-tools/tools.ts:184-185 | conversely, a returned value comes from the first binding with the name |
| Parameters.OtherNamesIrrelevant | 2024-07-10-functioncalling-with-tools/tools.ts:184-185 | inserting a binding with a different name at any position does not change the result |
| Parameters.LookupSeesOnlyItsName | 2024-07-10-functioncalling-with-tools/tools.ts:184-185 | the lookup on the full list equals the lookup on the bindings with that name alone |
| Parameters.LookupExample | 2024-07-10-functioncalling-with-tools/tools.ts:184-185 | on [("b","2"),("a","1")], looking up "a" gives "1" and looking up "c" fails |
| Urls.GeocodeUrl | 2024-07-10-functioncalling-with-tools/tools.ts:106 | the geocoding URL has the endpoint nominatim …/search, and its query is `q=` followed by the city verbatim, then `&format=json` |
| Urls.ReverseUrl | 2024-07-10-functioncalling-with-tools/tools.ts:125 | the reverse URL has the endpoint nominatim …/reverse, and its query is `lat=<latitude>&lon=<longitude>&format=json`, with both strings verbatim |
| Urls.ForecastUrl | 2024-07-10-functioncalling-with-tools/tools.ts:135 | the forecast URL has the endpoint open-meteo …/v1/forecast, and its query is `latitude=<lat>&longitude=<lon>&` followed by the fixed tail |
| Urls.SearchUrl | 2024-07-10-functioncalling-with-tools/tools.ts:161 | the search URL has the endpoint localhost:8080/search, and its query is `q=<query>&format=json`, with the query verbatim |
| Urls.GeocodeUrlReadsBack | 2024-07-10-functioncalling-with-tools/tools.ts:106 | for a city without `&`, the query reads back as [q=city, format=json] |
| Urls.SearchUrlReadsBack | 2024-07-10-functioncalling-with-tools/tools.ts:161 | for a query without `&`, the URL reads back as [q=query, format=json] |
| Urls.ReverseUrlReadsBack | 2024-07-10-functioncalling-with-tools/tools.ts:125 | for coordinates without `&`, the URL reads back as [lat=latitude, lon=longitude, format=json] |
| Urls.ForecastUrlReadsBack | 2024-07-10-functioncalling-with-tools/tools.ts:135 | for coordinates without `&`, the URL reads back as latitude, then longitude, then the four fixed entries current, temperature_unit, wind_speed_unit, forecast_days |
| Urls.ForecastUrlUnencodedSpill | 2024-07-10-functioncalling-with-tools/tools.ts:135 | since nothing is encoded, a latitude `a&longitude=b` reads back as latitude=a, longitude=b, and then the supplied longitude |
| Handlers.CityToLatLon | 2024-07-10-functioncalling-with-tools/tools.ts:102-121 | a pair is returned only for an array answer with a first entry, and then both coordinates are non-empty |
| Handlers.CityToLatLonCases | 2024-07-10-functioncalling-with-tools/tools.ts:111-116 | the sentinel is returned exactly when the truthiness test fails; otherwise the pair is the first entry's lat, then its lon |
| Handlers.CityToLatLonSentinel | 2024-07-10-functioncalling-with-tools/tools.ts:111-120 | a failed request, a non-array answer, an empty array, and a first entry with a missing or empty coordinate all give the sentinel and raise no error |
| Handlers.CityToLatLonFirstEntryOnly | 2024-07-10-functioncalling-with-tools/tools.ts:111-112 | entries after the first never change the result |
| Handlers.CityToLatLonRequests | 2024-07-10-functioncalling-with-tools/tools.ts:105-107 | the handler makes one request, to the geocoding endpoint, with the city as `q` (for arguments without `&`) |
| Handlers.LatLonToCityRequests | 2024-07-10-functioncalling-with-tools/tools.ts:123-129 | the handler makes one request, to the reverse endpoint, with latitude as `lat` and longitude as `lon` (for arguments without `&`) |
| Handlers.WeatherFromLatLonRequests | 2024-07-10-functioncalling-with-tools/tools.ts:133-140 | the handler makes one request, to the forecast endpoint, with latitude, longitude and the fixed entries (for arguments without `&`) |
| Handlers.WebSearchRequests | 2024-07-10-functioncalling-with-tools/tools.ts:159-165 | the handler makes one request, to the search endpoint, with the query as `q` (for arguments without `&`) |
| Handlers.WeatherFromLocationRequests | 2024-07-10-functioncalling-with-tools/tools.ts:146-157 | the geocoding request always comes first; there are two requests exactly when geocoding gave a pair, and one exactly when it gave the sentinel |
| Handlers.WeatherFromLocationForecast | 2024-07-10-functioncalling-with-tools/tools.ts:148-156 | some request goes to the forecast endpoint exactly when geocoding gave a pair, and that request is the forecast URL for element 0 (latitude) and element 1 (longitude) |
| Dispatch.ParametersRead | 2024-07-10-functioncalling-with-tools/tools.ts:192-207 | a name reads some parameters exactly when the switch has a case for it |
| Dispatch.ExecuteFunction | 2024-07-10-functioncalling-with-tools/tools.ts:188-208 | the result is a no-op exactly when the name is not one of the four cases; a reported missing parameter is one the case reads and one the bindings lack |
| Dispatch.Requests | 2024-07-10-functioncalling-with-tools/tools.ts:188-208 | an invocation makes no request exactly when it is a no-op or a failed lookup, and never more than two; the four `Dispatch.*CallRequests` lemmas give the exact URLs of each tool |
| Dispatch.CallsHandlerExactlyWhenSupplied | 2024-07-10-functioncalling-with-tools/tools.ts:192-207 | a handler is called exactly when the name has a case and every parameter the case reads is bound |
| Dispatch.UnknownNameDoesNothing | 2024-07-10-functioncalling-with-tools/tools.ts:192-207 | a name outside the four cases gives a no-op and no request |
| Dispatch.CityToLatLonIsNotDispatched | 2024-07-10-functioncalling-with-tools/tools.ts:20-31 | CityToLatLon has a declared descriptor, but calling it by name is a no-op |
| Dispatch.CoordinatesInOrder | 2024-07-10-functioncalling-with-tools/tools.ts:195-206 | WeatherFromLatLon and LatLonToCity get the first "latitude" binding as the first argument and the first "longitude" binding as the second |
| Dispatch.SingleArgument | 2024-07-10-functioncalling-with-tools/tools.ts:193-201 | WeatherFromLocation gets the first "location" binding, and WebSearch gets the first "query" binding |
| Dispatch.FirstMissingParameterReported | 2024-07-10-functioncalling-with-tools/tools.ts:196-205 | latitude is looked up before longitude: with no latitude the failure names "latitude"; with a latitude but no longitude it names "longitude" |
| Dispatch.ReadsOnlyItsParameters | 2024-07-10-functioncalling-with-tools/tools.ts:192-207 | two binding lists that agree on the names a case reads give the same invocation |
| Dispatch.DispatcherMatchesCatalog | 2024-07-10-functioncalling-with-tools/tools.ts:167-207 | the names with a case are exactly the published tool names, in the same order; each case reads exactly its descriptor's parameters, in declaration order; CityToLatLon reads none |
| Dispatch.RequestCounts | 2024-07-10-functioncalling-with-tools/tools.ts:188-208 | zero requests for an unknown name or a missing parameter; one request for WeatherFromLatLon, WebSearch and LatLonToCity; one or two for WeatherFromLocation, according to geocoding |
| Dispatch.WeatherFromLocationCallRequests | 2024-07-10-functioncalling-with-tools/tools.ts:193-194 | for any bindings, WeatherFromLocation makes exactly the requests of the handler for the first "location" value |
| Dispatch.WeatherFromLatLonCallRequests | 2024-07-10-functioncalling-with-tools/tools.ts:195-199 | for any bindings, WeatherFromLatLon requests exactly the forecast URL for the first "latitude" and first "longitude" values |
| Dispatch.WebSearchCallRequests | 2024-07-10-functioncalling-with-tools/tools.ts:200-201 | for any bindings, WebSearch requests exactly the search URL for the first "query" value |
| Dispatch.LatLonToCityCallRequests | 2024-07-10-functioncalling-with-tools/tools.ts:202-206 | for any bindings, LatLonToCity requests exactly the reverse-geocoding URL for the first "latitude" and first "longitude" values |
| Dispatch.ForecastExample | 2024-07-10-functioncalling-with-tools/tools.ts:135 | the forecast URL for 52.52 and 13.405 reads back as latitude=52.52, longitude=13.405, then the fixed entries |

## Left out

- The `fetch` calls, `output.json()` and HTTP itself are not modelled. A request is its URL string. The only response the code inspects, the geocoding answer, is an input value.
- Response fields are not modelled: `current.temperature_2m`, `display_name`, and `results[0].title`/`content`. The code only prints them.
- The transport and parse failures of the reverse-geocoding, forecast and search requests are not modelled. In the code they propagate as rejected promises.
- WebSearch's crash on an empty result list (tools.ts:164) is not modelled, because it depends on a response the model does not take as input.
- `console.log`/`console.error` output, including the message WeatherFromLocation prints on the sentinel, is not modelled. These are presentation side effects with no value.
- `async`/`await` is not modelled. The composed tool is plain sequential composition, and there is no concurrency.
- The text of `toolsString` is not modelled: `JSON.stringify(..., null, 2)` formatting belongs to the runtime. The model keeps the list of descriptors that it serialises, in order.
- Handlers.CityToLatLon: JavaScript truthiness of `lat`/`lon` is reduced to "present and not the empty string". Non-string JSON values in those fields (numbers, `0`, `false`) are not modelled.
- Handlers.GeoEntry: the `json &&` and `json.length > 0` tests on non-array JSON values (strings, objects, `null`) are merged into one `NotAnArray` case. For every such value the code also returns the sentinel, except an object with a positive `length` whose key `"0"` holds truthy `lat`/`lon`; the geocoding service does not return such objects. An array whose first element is not an object is not modelled either: a `null` element makes `json[0].lat` throw into the catch, and a string or number element has undefined `lat` and `lon`; both give the sentinel, as `GeoEntry(None, None)` does, so no outcome is lost.
- Urls.QueryParams: the reference reading of a URL does no percent-decoding and does not treat `#` as the start of a fragment. It is only a partner for the templates. It is not a model of a URL parser.
- Urls.ForecastTail: the fixed forecast query tail is written entry by entry joined with `&`. This is the same character string as in the template at tools.ts:135.
- The value `executeFunction` resolves to is not modelled, because it is always `undefined`.
