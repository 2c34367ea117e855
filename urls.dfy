/** The four request URLs. Each is a fixed template into which the parameter
    strings are interpolated verbatim, with no percent-encoding.

    As the partner of the templates this module carries a small reference
    reading of a URL: the endpoint is the text before the first '?', the query
    is split on '&' and each piece at its first '='. The lemmas show that the
    templates place each argument, unchanged, under its own key when the
    argument has no '&', and that they do not when it has. */
module Urls {

  const GeocodeEndpoint := "https://nominatim.openstreetmap.org/search"
  const ReverseEndpoint := "https://nominatim.openstreetmap.org/reverse"
  const ForecastEndpoint := "https://api.open-meteo.com/v1/forecast"
  const SearchEndpoint := "http://localhost:8080/search"

  /** A query entry as the reference reading sees it. */
  datatype QueryParam = QueryParam(key: string, value: string)

  /** Index of the first occurrence of `c` in `s`, or `|s|` when there is none. */
  function IndexOf(s: string, c: char): (i: nat)
    ensures i <= |s|
    ensures i < |s| <==> c in s
    ensures i < |s| ==> s[i] == c
    ensures forall j :: 0 <= j < i ==> s[j] != c
  {
    if s == [] then 0 else if s[0] == c then 0 else 1 + IndexOf(s[1..], c)
  }

  /** The pieces of `s` between occurrences of `sep`. */
  function Split(s: string, sep: char): (r: seq<string>)
    ensures |r| >= 1
    ensures forall k :: 0 <= k < |r| ==> sep !in r[k]
  {
    if s == [] then [""]
    else
      var rest := Split(s[1..], sep);
      if s[0] == sep then [""] + rest else [[s[0]] + rest[0]] + rest[1..]
  }

  /** The text before the first '?'. */
  function Endpoint(url: string): string
  {
    url[..IndexOf(url, '?')]
  }

  /** The text after the first '?' (empty if there is none). */
  function Query(url: string): string
  {
    var i := IndexOf(url, '?');
    if i < |url| then url[i + 1..] else ""
  }

  /** One query piece split at its first '='. */
  function KeyValue(piece: string): QueryParam
  {
    var i := IndexOf(piece, '=');
    if i < |piece| then QueryParam(piece[..i], piece[i + 1..]) else QueryParam(piece, "")
  }

  function KeyValues(pieces: seq<string>): (r: seq<QueryParam>)
    ensures |r| == |pieces|
    ensures forall k :: 0 <= k < |pieces| ==> r[k] == KeyValue(pieces[k])
  {
    if pieces == [] then [] else [KeyValue(pieces[0])] + KeyValues(pieces[1..])
  }

  /** The query entries of a URL, in order. */
  function QueryParams(url: string): seq<QueryParam>
  {
    KeyValues(Split(Query(url), '&'))
  }

  lemma {:induction false} IndexOfAppend(a: string, b: string, c: char)
    requires c !in a
    ensures IndexOf(a + b, c) == |a| + IndexOf(b, c)
  {
    if a == [] {
      assert a + b == b;
    } else {
      assert (a + b)[1..] == a[1..] + b;
      IndexOfAppend(a[1..], b, c);
    }
  }

  lemma {:induction false} SplitNoSeparator(s: string, sep: char)
    requires sep !in s
    ensures Split(s, sep) == [s]
  {
    if s != [] {
      SplitNoSeparator(s[1..], sep);
      assert [s[0]] + s[1..] == s;
    }
  }

  /** Splitting `a + [sep] + b` when `a` holds no separator. */
  lemma {:induction false} SplitAppend(a: string, sep: char, b: string)
    requires sep !in a
    ensures Split(a + [sep] + b, sep) == [a] + Split(b, sep)
  {
    if a == [] {
      assert a + [sep] + b == [sep] + b;
      assert ([sep] + b)[1..] == b;
    } else {
      assert (a + [sep] + b)[1..] == a[1..] + [sep] + b;
      SplitAppend(a[1..], sep, b);
      assert [a[0]] + a[1..] == a;
    }
  }

  /** A URL built as `endpoint + "?" + query` reads back as those two parts. */
  lemma EndpointAndQuery(endpoint: string, query: string)
    requires '?' !in endpoint
    ensures Endpoint(endpoint + "?" + query) == endpoint
    ensures Query(endpoint + "?" + query) == query
  {
    IndexOfAppend(endpoint, "?" + query, '?');
    assert endpoint + "?" + query == endpoint + ("?" + query);
  }

  /** A piece `key=value` reads back as that pair when `key` has no '='. */
  lemma KeyValueOf(key: string, value: string)
    requires '=' !in key
    ensures KeyValue(key + "=" + value) == QueryParam(key, value)
  {
    IndexOfAppend(key, "=" + value, '=');
    assert key + "=" + value == key + ("=" + value);
    assert (key + "=" + value)[..|key|] == key;
    assert (key + "=" + value)[|key| + 1..] == value;
  }

  lemma {:induction false} KeyValuesAppend(a: seq<string>, b: seq<string>)
    ensures KeyValues(a + b) == KeyValues(a) + KeyValues(b)
  {
    if a == [] {
      assert a + b == b;
    } else {
      assert (a + b)[1..] == a[1..] + b;
      KeyValuesAppend(a[1..], b);
    }
  }

  lemma Associate(x: string, y: string, z: string)
    ensures x + (y + z) == (x + y) + z
  {
  }

  lemma Regroup(p: string, a: string, b: string, c: string, d: string, e: string)
    ensures p + a + b + c + d + e == p + (a + b + c + d + e)
  {
    Associate(p, a, b);
    Associate(p, a + b, c);
    Associate(p, a + b + c, d);
    Associate(p, a + b + c + d, e);
  }

  /** The reading of a query `key=value&tail`: the value is the whole of the
      first entry's value when neither key nor value holds '&'. */
  lemma {:induction false} OneValueThenTail(key: string, value: string, tail: string)
    requires '=' !in key && '&' !in key && '&' !in value
    ensures KeyValues(Split(key + "=" + value + "&" + tail, '&')) == [QueryParam(key, value)] + KeyValues(Split(tail, '&'))
  {
    assert '&' !in key + "=" + value;
    SplitAppend(key + "=" + value, '&', tail);
    assert key + "=" + value + "&" + tail == key + "=" + value + ['&'] + tail;
    KeyValueOf(key, value);
    KeyValuesAppend([key + "=" + value], Split(tail, '&'));
  }

  /** The reading of a query `k1=v1&k2=v2&tail`. */
  lemma TwoValuesThenTail(k1: string, v1: string, k2: string, v2: string, tail: string)
    requires '=' !in k1 && '&' !in k1 && '&' !in v1
    requires '=' !in k2 && '&' !in k2 && '&' !in v2
    ensures KeyValues(Split(k1 + "=" + v1 + "&" + k2 + "=" + v2 + "&" + tail, '&'))
         == [QueryParam(k1, v1), QueryParam(k2, v2)] + KeyValues(Split(tail, '&'))
  {
    var rest := k2 + "=" + v2 + "&" + tail;
    Regroup(k1 + "=" + v1 + "&", k2, "=", v2, "&", tail);
    OneValueThenTail(k1, v1, rest);
    OneValueThenTail(k2, v2, tail);
  }

  // Reassociations of the four templates into endpoint, '?' and query.

  lemma GeocodeShape(city: string)
    ensures GeocodeEndpoint + "?q=" + city + "&format=json" == GeocodeEndpoint + "?" + ("q" + "=" + city + "&" + "format=json")
  {
  }

  lemma ReverseShape(latitude: string, longitude: string)
    ensures ReverseEndpoint + "?lat=" + latitude + "&lon=" + longitude + "&format=json"
         == ReverseEndpoint + "?" + ("lat" + "=" + latitude + "&" + "lon" + "=" + longitude + "&" + "format=json")
  {
  }

  lemma ForecastShape(latitude: string, longitude: string)
    ensures ForecastEndpoint + "?latitude=" + latitude + "&longitude=" + longitude + "&" + ForecastTail
         == ForecastEndpoint + "?" + ("latitude" + "=" + latitude + "&" + "longitude" + "=" + longitude + "&" + ForecastTail)
  {
  }

  lemma SearchShape(query: string)
    ensures SearchEndpoint + "?q=" + query + "&format=json" == SearchEndpoint + "?" + ("q" + "=" + query + "&" + "format=json")
  {
  }

  /** `https://nominatim.openstreetmap.org/search?q=${city}&format=json` (tools.ts:106). */
  function GeocodeUrl(city: string): (url: string)
    ensures Endpoint(url) == GeocodeEndpoint
    ensures Query(url) == "q" + "=" + city + "&" + "format=json"
  {
    GeocodeShape(city);
    EndpointAndQuery(GeocodeEndpoint, "q" + "=" + city + "&" + "format=json");
    GeocodeEndpoint + "?q=" + city + "&format=json"
  }

  /** `https://nominatim.openstreetmap.org/reverse?lat=${latitude}&lon=${longitude}&format=json` (tools.ts:125). */
  function ReverseUrl(latitude: string, longitude: string): (url: string)
    ensures Endpoint(url) == ReverseEndpoint
    ensures Query(url) == "lat" + "=" + latitude + "&" + "lon" + "=" + longitude + "&" + "format=json"
  {
    ReverseShape(latitude, longitude);
    EndpointAndQuery(ReverseEndpoint, "lat" + "=" + latitude + "&" + "lon" + "=" + longitude + "&" + "format=json");
    ReverseEndpoint + "?lat=" + latitude + "&lon=" + longitude + "&format=json"
  }

  /** The fixed tail of the forecast query after the two coordinates, written
      entry by entry: `current=temperature_2m&temperature_unit=celsius&wind_speed_unit=kmh&forecast_days=1`. */
  const ForecastTail := "current=temperature_2m" + "&" + "temperature_unit=celsius" + "&" + "wind_speed_unit=kmh" + "&" + "forecast_days=1"

  /** `https://api.open-meteo.com/v1/forecast?latitude=${latitude}&longitude=${longitude}&current=...` (tools.ts:135). */
  function ForecastUrl(latitude: string, longitude: string): (url: string)
    ensures Endpoint(url) == ForecastEndpoint
    ensures Query(url) == "latitude" + "=" + latitude + "&" + "longitude" + "=" + longitude + "&" + ForecastTail
  {
    ForecastShape(latitude, longitude);
    EndpointAndQuery(ForecastEndpoint, "latitude" + "=" + latitude + "&" + "longitude" + "=" + longitude + "&" + ForecastTail);
    ForecastEndpoint + "?latitude=" + latitude + "&longitude=" + longitude + "&" + ForecastTail
  }

  /** `http://localhost:8080/search?q=${query}&format=json` (tools.ts:161). */
  function SearchUrl(query: string): (url: string)
    ensures Endpoint(url) == SearchEndpoint
    ensures Query(url) == "q" + "=" + query + "&" + "format=json"
  {
    SearchShape(query);
    EndpointAndQuery(SearchEndpoint, "q" + "=" + query + "&" + "format=json");
    SearchEndpoint + "?q=" + query + "&format=json"
  }

  lemma FormatJsonKeyValue()
    ensures KeyValue("format=json") == QueryParam("format", "json")
  {
    var key, value := "format", "json";
    assert key + "=" + value == "format=json";
    KeyValueOf(key, value);
  }

  lemma FormatJsonTail()
    ensures KeyValues(Split("format=json", '&')) == [QueryParam("format", "json")]
  {
    var s := Split("format=json", '&');
    SplitNoSeparator("format=json", '&');
    assert s == ["format=json"];
    FormatJsonKeyValue();
    assert KeyValues(s) == [KeyValue("format=json")];
  }

  lemma FourPieces(p1: string, p2: string, p3: string, p4: string)
    requires '&' !in p1 && '&' !in p2 && '&' !in p3 && '&' !in p4
    ensures Split(p1 + "&" + p2 + "&" + p3 + "&" + p4, '&') == [p1, p2, p3, p4]
  {
    assert p1 + "&" + p2 + "&" + p3 + "&" + p4 == p1 + ['&'] + (p2 + ['&'] + (p3 + ['&'] + p4));
    SplitAppend(p1, '&', p2 + ['&'] + (p3 + ['&'] + p4));
    SplitAppend(p2, '&', p3 + ['&'] + p4);
    SplitAppend(p3, '&', p4);
    SplitNoSeparator(p4, '&');
  }

  lemma ForecastTailPieces()
    ensures Split(ForecastTail, '&') == ["current=temperature_2m", "temperature_unit=celsius", "wind_speed_unit=kmh", "forecast_days=1"]
  {
    var p1, p2, p3, p4 := "current=temperature_2m", "temperature_unit=celsius", "wind_speed_unit=kmh", "forecast_days=1";
    FourPieces(p1, p2, p3, p4);
  }

  lemma CurrentEntry()
    ensures KeyValue("current=temperature_2m") == QueryParam("current", "temperature_2m")
  {
    var key, value := "current", "temperature_2m";
    assert key + "=" + value == "current=temperature_2m";
    KeyValueOf(key, value);
  }

  lemma UnitEntry()
    ensures KeyValue("temperature_unit=celsius") == QueryParam("temperature_unit", "celsius")
  {
    var key, value := "temperature_unit", "celsius";
    assert key + "=" + value == "temperature_unit=celsius";
    KeyValueOf(key, value);
  }

  lemma WindEntry()
    ensures KeyValue("wind_speed_unit=kmh") == QueryParam("wind_speed_unit", "kmh")
  {
    var key, value := "wind_speed_unit", "kmh";
    assert key + "=" + value == "wind_speed_unit=kmh";
    KeyValueOf(key, value);
  }

  lemma DaysEntry()
    ensures KeyValue("forecast_days=1") == QueryParam("forecast_days", "1")
  {
    var key, value := "forecast_days", "1";
    assert key + "=" + value == "forecast_days=1";
    KeyValueOf(key, value);
  }

  lemma FourKeyValues(a: string, b: string, c: string, d: string)
    ensures KeyValues([a, b, c, d]) == [KeyValue(a), KeyValue(b), KeyValue(c), KeyValue(d)]
  {
  }

  /** The fixed entries of the forecast query, as the reference reading sees them. */
  const ForecastFixedParams: seq<QueryParam> :=
    [QueryParam("current", "temperature_2m"), QueryParam("temperature_unit", "celsius"),
     QueryParam("wind_speed_unit", "kmh"), QueryParam("forecast_days", "1")]

  lemma ForecastTailParams()
    ensures KeyValues(Split(ForecastTail, '&')) == ForecastFixedParams
  {
    var p1, p2, p3, p4 := "current=temperature_2m", "temperature_unit=celsius", "wind_speed_unit=kmh", "forecast_days=1";
    ForecastTailPieces();
    FourKeyValues(p1, p2, p3, p4);
    CurrentEntry();
    UnitEntry();
    WindEntry();
    DaysEntry();
  }

  // Facts about the literal keys, kept in lemmas of their own so that the
  // proofs using them stay small.

  lemma PlainKey(key: string)
    requires key in ["q", "lat", "lon", "latitude", "longitude"]
    ensures '=' !in key && '&' !in key
  {
  }

  lemma LongitudeSeparator()
    ensures "&longitude=" == "&" + "longitude" + "="
  {
  }

  /** The geocoding request carries the city verbatim as `q`. */
  lemma GeocodeUrlReadsBack(city: string)
    ensures '&' !in city ==>
      QueryParams(GeocodeUrl(city)) == [QueryParam("q", city), QueryParam("format", "json")]
  {
    if '&' !in city {
      PlainKey("q");
      OneValueThenTail("q", city, "format=json");
      FormatJsonTail();
    }
  }

  /** The search request carries the query verbatim as `q`. */
  lemma SearchUrlReadsBack(query: string)
    ensures '&' !in query ==>
      QueryParams(SearchUrl(query)) == [QueryParam("q", query), QueryParam("format", "json")]
  {
    if '&' !in query {
      PlainKey("q");
      OneValueThenTail("q", query, "format=json");
      FormatJsonTail();
    }
  }

  /** The reverse-geocoding request carries latitude as `lat` and longitude as `lon`. */
  lemma ReverseUrlReadsBack(latitude: string, longitude: string)
    ensures '&' !in latitude && '&' !in longitude ==>
      QueryParams(ReverseUrl(latitude, longitude)) ==
      [QueryParam("lat", latitude), QueryParam("lon", longitude), QueryParam("format", "json")]
  {
    if '&' !in latitude && '&' !in longitude {
      PlainKey("lat");
      PlainKey("lon");
      TwoValuesThenTail("lat", latitude, "lon", longitude, "format=json");
      FormatJsonTail();
    }
  }

  /** The forecast request carries `latitude=<lat>&longitude=<lon>` exactly as supplied. */
  lemma ForecastUrlReadsBack(latitude: string, longitude: string)
    ensures '&' !in latitude && '&' !in longitude ==>
      QueryParams(ForecastUrl(latitude, longitude)) ==
      [QueryParam("latitude", latitude), QueryParam("longitude", longitude)] + ForecastFixedParams
  {
    if '&' !in latitude && '&' !in longitude {
      var k1, k2, tail := "latitude", "longitude", ForecastTail;
      PlainKey(k1);
      PlainKey(k2);
      TwoValuesThenTail(k1, latitude, k2, longitude, tail);
      ForecastTailParams();
    }
  }

  /** The reading of any query `k1=a` + mid + `b&k2=l&tail` where mid is `&k2=`. */
  lemma SpillReading(url: string, k1: string, k2: string, mid: string, a: string, b: string, l: string, tail: string)
    requires '=' !in k1 && '&' !in k1 && '=' !in k2 && '&' !in k2
    requires '&' !in a && '&' !in b && '&' !in l
    requires mid == "&" + k2 + "="
    requires Query(url) == k1 + "=" + (a + mid + b) + "&" + k2 + "=" + l + "&" + tail
    ensures QueryParams(url) == [QueryParam(k1, a), QueryParam(k2, b), QueryParam(k2, l)] + KeyValues(Split(tail, '&'))
  {
    Reassociate(k1, a, k2, b, l, tail);
    TwoValuesThenTail(k1, a, k2, b, k2 + "=" + l + "&" + tail);
    OneValueThenTail(k2, l, tail);
  }

  lemma Reassociate(k1: string, a: string, k2: string, b: string, l: string, tail: string)
    ensures k1 + "=" + (a + ("&" + k2 + "=") + b) + "&" + k2 + "=" + l + "&" + tail
         == k1 + "=" + a + "&" + k2 + "=" + b + "&" + (k2 + "=" + l + "&" + tail)
  {
  }

  /** Without encoding, a value holding '&' spills into further entries: a
      latitude `a&longitude=b` yields the entries latitude=a, longitude=b and
      only then the longitude actually supplied, so the latitude entry is no
      longer the latitude that was passed. */
  lemma ForecastUrlUnencodedSpill(a: string, b: string, longitude: string)
    requires '&' !in a && '&' !in b && '&' !in longitude
    ensures QueryParams(ForecastUrl(a + "&longitude=" + b, longitude)) ==
      [QueryParam("latitude", a), QueryParam("longitude", b), QueryParam("longitude", longitude)] + ForecastFixedParams
  {
    var mid := "&longitude=";
    var url := ForecastUrl(a + mid + b, longitude);
    var k1, k2 := "latitude", "longitude";
    PlainKey(k1);
    PlainKey(k2);
    LongitudeSeparator();
    SpillReading(url, k1, k2, mid, a, b, longitude, ForecastTail);
    ForecastTailParams();
  }
}
