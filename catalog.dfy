/** The tool descriptors of tools.ts and the catalog that is published to the
    model-calling layer. All of it is constant data. */
module Catalog {

  /** One declared parameter of a tool. `required` is declarative only: nothing
      in the executor checks it. `kind` is the descriptor's `type` field. */
  datatype ToolParameter = ToolParameter(name: string, description: string, kind: string, required: bool)

  datatype Tool = Tool(name: string, description: string, parameters: seq<ToolParameter>)

  const CityToLatLonTool: Tool := Tool(
    "CityToLatLon",
    "Get the latitude and longitude for a given city",
    [ToolParameter("city", "The city to get the latitude and longitude for", "string", true)])

  const WeatherFromLatLonTool: Tool := Tool(
    "WeatherFromLatLon",
    "Get the weather for a location",
    [ToolParameter("latitude", "The latitude of the location", "number", true),
     ToolParameter("longitude", "The longitude of the location", "number", true)])

  const LatLonToCityTool: Tool := Tool(
    "LatLonToCity",
    "Get the city name for a given latitude and longitude",
    [ToolParameter("latitude", "The latitude of the location", "number", true),
     ToolParameter("longitude", "The longitude of the location", "number", true)])

  const WebSearchTool: Tool := Tool(
    "WebSearch",
    "Search the web for a query",
    [ToolParameter("query", "The query to search for", "string", true)])

  const WeatherFromLocationTool: Tool := Tool(
    "WeatherFromLocation",
    "Get the weather for a location",
    [ToolParameter("location", "The location to get the weather for", "string", true)])

  /** Every descriptor the file declares, in declaration order. */
  const DeclaredTools: seq<Tool> :=
    [CityToLatLonTool, WeatherFromLatLonTool, LatLonToCityTool, WebSearchTool, WeatherFromLocationTool]

  /** The list serialised as `{ tools: [...] }`: four of the five descriptors. */
  const PublishedTools: seq<Tool> :=
    [WeatherFromLocationTool, WeatherFromLatLonTool, WebSearchTool, LatLonToCityTool]

  /** The names of a list of tools, in order. */
  function ToolNames(tools: seq<Tool>): seq<string>
  {
    seq(|tools|, i requires 0 <= i < |tools| => tools[i].name)
  }

  /** The names of a list of declared parameters, in order. */
  function ParameterNames(params: seq<ToolParameter>): seq<string>
  {
    seq(|params|, i requires 0 <= i < |params| => params[i].name)
  }

  predicate Distinct(names: seq<string>)
  {
    forall i, j :: 0 <= i < j < |names| ==> names[i] != names[j]
  }

  predicate AllRequired(tools: seq<Tool>)
  {
    forall i, j :: 0 <= i < |tools| && 0 <= j < |tools[i].parameters| ==> tools[i].parameters[j].required
  }

  /** The published catalog: exactly four tools, in this order, with distinct
      names, without CityToLatLon, and with every parameter marked required. */
  lemma PublishedCatalog()
    ensures ToolNames(PublishedTools) == ["WeatherFromLocation", "WeatherFromLatLon", "WebSearch", "LatLonToCity"]
    ensures Distinct(ToolNames(PublishedTools))
    ensures "CityToLatLon" !in ToolNames(PublishedTools)
    ensures AllRequired(PublishedTools)
  {
  }

  /** CityToLatLon has a descriptor of its own, and the published catalog is the
      declared set with exactly that one removed. */
  lemma DeclaredButUnpublished()
    ensures Distinct(ToolNames(DeclaredTools))
    ensures AllRequired(DeclaredTools)
    ensures forall t :: t in PublishedTools ==> t in DeclaredTools
    ensures forall t :: t in DeclaredTools && t !in PublishedTools ==> t == CityToLatLonTool
    ensures CityToLatLonTool.name == "CityToLatLon" && CityToLatLonTool in DeclaredTools
  {
  }

  /** Each published tool declares its parameters in this order. */
  lemma PublishedParameters()
    ensures ParameterNames(WeatherFromLocationTool.parameters) == ["location"]
    ensures ParameterNames(WeatherFromLatLonTool.parameters) == ["latitude", "longitude"]
    ensures ParameterNames(WebSearchTool.parameters) == ["query"]
    ensures ParameterNames(LatLonToCityTool.parameters) == ["latitude", "longitude"]
    ensures ParameterNames(CityToLatLonTool.parameters) == ["city"]
  {
  }
}
