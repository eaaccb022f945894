/** The stand-alone deployment server (api-deploy/server.js): one request
    handler that sets the CORS headers, answers preflight requests, and
    otherwise picks the first matching route among a fixed country list, a
    per-country record parsed from the URL, a fixed history, and an index
    page. */
module ApiDeploy {
  import opened Base
  import opened Strings

  datatype ApiCountry = ApiCountry(id: string, country: string, region: string, status: string, lastUpdated: int)

  /** The `details` member of a country record. */
  datatype CallStats = CallStats(callsTotal: int, callsSuccessful: int, callsFailed: int, avgLatency: int,
                                 timeouts: int)

  datatype HistoryDay = HistoryDay(date: string, status: string, countries: seq<string>)

  /** What `res.end` is given: nothing, or the JSON or HTML the route
      builds; `now` is the instant `new Date()` reads. */
  datatype Payload =
    | Empty
    | CountryList(records: seq<ApiCountry>)
    | CountryDetail(record: ApiCountry, details: CallStats)
    | History(days: seq<HistoryDay>)
    | IndexPage(now: int)

  /** The status, the `Content-Type` passed to `writeHead` (if any) and the
      payload of a route. */
  datatype Answer = Answer(status: int, contentType: Option<string>, payload: Payload)

  /** The calls the handler makes on `res`, in order. */
  datatype Event = SetHeader(name: string, value: string) | WriteHead(status: int, contentType: Option<string>)
                 | End(payload: Payload)

  const GlobalPath: string := "/api/telemetry/global"
  const CountryPrefix: string := "/api/telemetry/country/"
  const HistoryPath: string := "/api/history"
  const Json: string := "application/json"
  const Html: string := "text/html"

  const CorsHeaders: seq<(string, string)> :=
    [("Access-Control-Allow-Origin", "*"),
     ("Access-Control-Allow-Methods", "GET, POST, OPTIONS"),
     ("Access-Control-Allow-Headers", "Content-Type")]

  const SampleStats: CallStats := CallStats(1250, 1200, 50, 120, 15)

  const HistoryCountries: seq<string> := ["US", "UK", "DE", "FR"]

  const HistoryDays: seq<HistoryDay> :=
    [HistoryDay("2025-03-01", "green", HistoryCountries),
     HistoryDay("2025-03-02", "yellow", HistoryCountries),
     HistoryDay("2025-03-03", "green", HistoryCountries)]

  /** The four fixed countries of the global route. */
  function GlobalRecords(now: int): (records: seq<ApiCountry>)
    ensures |records| == 4
    ensures forall i :: 0 <= i < 4 ==> records[i].lastUpdated == now
  {
    [ApiCountry("US1", "United States", "North America", "green", now),
     ApiCountry("UK1", "United Kingdom", "Europe", "yellow", now),
     ApiCountry("DE1", "Germany", "Europe", "green", now),
     ApiCountry("FR1", "France", "Europe", "green", now)]
  }

  /** The record built for a country id: two ids have a full name, every
      other id stands for itself; the region is North America exactly for
      ids starting with `US`. */
  function CountryRecord(countryId: string, now: int): (r: ApiCountry)
    ensures r.id == countryId && r.status == "green" && r.lastUpdated == now
    ensures countryId == "US1" ==> r.country == "United States"
    ensures countryId == "UK1" ==> r.country == "United Kingdom"
    ensures countryId != "US1" && countryId != "UK1" ==> r.country == countryId
    ensures r.region == "North America" <==> StartsWith(countryId, "US")
    ensures r.region != "North America" ==> r.region == "Europe"
  {
    ApiCountry(countryId,
               if countryId == "US1" then "United States" else if countryId == "UK1" then "United Kingdom" else countryId,
               if StartsWith(countryId, "US") then "North America" else "Europe",
               "green", now)
  }

  /** The routing chain; the first branch that matches answers. */
  function Route(requestMethod: string, url: string, now: int): (a: Answer)
    ensures requestMethod == "OPTIONS" ==> a == Answer(204, None, Empty)
    ensures requestMethod != "OPTIONS" ==> a.status == 200 && a.contentType.Some?
    ensures requestMethod != "OPTIONS" && url == GlobalPath ==>
      a.contentType == Some(Json) && a.payload.CountryList? && a.payload.records == GlobalRecords(now)
    ensures requestMethod != "OPTIONS" && url != GlobalPath && StartsWith(url, CountryPrefix) ==>
      a == Answer(200, Some(Json), CountryDetail(CountryRecord(AfterLastSlash(url), now), SampleStats))
    ensures requestMethod != "OPTIONS" && url == HistoryPath ==>
      a.contentType == Some(Json) && a.payload == History(HistoryDays) && |a.payload.days| == 3
    ensures requestMethod != "OPTIONS" && url != GlobalPath && !StartsWith(url, CountryPrefix) && url != HistoryPath
      ==> a == Answer(200, Some(Html), IndexPage(now))
  {
    assert |HistoryPath| < |CountryPrefix|;
    if requestMethod == "OPTIONS" then Answer(204, None, Empty)
    else if url == GlobalPath then Answer(200, Some(Json), CountryList(GlobalRecords(now)))
    else if StartsWith(url, CountryPrefix) then
      Answer(200, Some(Json), CountryDetail(CountryRecord(AfterLastSlash(url), now), SampleStats))
    else if url == HistoryPath then Answer(200, Some(Json), History(HistoryDays))
    else Answer(200, Some(Html), IndexPage(now))
  }

  /** A country URL gives back the id it was built from, whatever the
      method other than OPTIONS. */
  lemma CountryIdFromUrl(requestMethod: string, countryId: string, now: int)
    requires requestMethod != "OPTIONS"
    requires '/' !in countryId
    ensures Route(requestMethod, CountryPrefix + countryId, now).payload == CountryDetail(CountryRecord(countryId, now), SampleStats)
  {
    var url := CountryPrefix + countryId;
    assert url[..|CountryPrefix|] == CountryPrefix;
    assert |url| >= |CountryPrefix| > |GlobalPath|;
    AfterLastSlashOfPiece(CountryPrefix, countryId);
  }

  /** The events of an answer: `writeHead`, then `end`. */
  function AnswerEvents(a: Answer): seq<Event>
  {
    [WriteHead(a.status, a.contentType), End(a.payload)]
  }

  function CorsEvents(): (es: seq<Event>)
    ensures |es| == 3 && forall i :: 0 <= i < 3 ==> es[i] == SetHeader(CorsHeaders[i].0, CorsHeaders[i].1)
  {
    [SetHeader(CorsHeaders[0].0, CorsHeaders[0].1), SetHeader(CorsHeaders[1].0, CorsHeaders[1].1),
     SetHeader(CorsHeaders[2].0, CorsHeaders[2].1)]
  }

  /** The `res` object, as the sequence of calls made on it. */
  class ServerResponse {
    var events: seq<Event>

    constructor()
      ensures events == []
    {
      events := [];
    }

    method SetHeaderCall(name: string, value: string)
      modifies this
      ensures events == old(events) + [SetHeader(name, value)]
    {
      events := events + [SetHeader(name, value)];
    }

    method WriteHeadCall(status: int, contentType: Option<string>)
      modifies this
      ensures events == old(events) + [WriteHead(status, contentType)]
    {
      events := events + [WriteHead(status, contentType)];
    }

    method EndCall(payload: Payload)
      modifies this
      ensures events == old(events) + [End(payload)]
    {
      events := events + [End(payload)];
    }
  }

  /** The request handler: the three CORS headers come first, whatever the
      route; then one `writeHead` and one `end` with the routed answer. */
  method HandleRequest(requestMethod: string, url: string, now: int, res: ServerResponse)
    modifies res
    ensures res.events == old(res.events) + CorsEvents() + AnswerEvents(Route(requestMethod, url, now))
  {
    res.SetHeaderCall("Access-Control-Allow-Origin", "*");
    res.SetHeaderCall("Access-Control-Allow-Methods", "GET, POST, OPTIONS");
    res.SetHeaderCall("Access-Control-Allow-Headers", "Content-Type");
    var a := Route(requestMethod, url, now);
    res.WriteHeadCall(a.status, a.contentType);
    res.EndCall(a.payload);
  }
}
