/** The API layer of the two React clients (client/src/services/api.js and
    telephony-monitor/client/src/services/api.js): the query parameters the
    history calls build, the path each call requests, and what each call
    resolves to. The two files build parameters the same way; they differ in
    what they return. */
module ClientApi {
  import opened Base
  import opened Records
  import opened TimeRanges
  import TmHistory
  import ApiDeploy

  /** A `params` object: string keys to string values. */
  type QueryParams = map<string, string>

  /** The value of `p[key]`, `undefined` when absent. */
  function Lookup(p: QueryParams, key: string): (v: Option<string>)
    ensures v.Some? <==> key in p
    ensures v.Some? ==> v.value == p[key]
  {
    if key in p then Some(p[key]) else None
  }

  /** The parameters of a history call: `timeRange` (defaulted to `'5d'`
      when not passed) always; both dates only for `'custom'` with two
      truthy dates; `number` only when truthy. Nothing else. */
  function HistoryParams(timeRange: Option<string>, startDate: Option<string>, endDate: Option<string>,
                         number: Option<string>): (p: QueryParams)
    ensures "timeRange" in p && p["timeRange"] == TmHistory.DestructuredRange(timeRange)
    ensures "startDate" in p <==> IsCustom(TmHistory.DestructuredRange(timeRange), startDate, endDate)
    ensures "endDate" in p <==> IsCustom(TmHistory.DestructuredRange(timeRange), startDate, endDate)
    ensures "startDate" in p ==> p["startDate"] == startDate.value && p["endDate"] == endDate.value
    ensures "number" in p <==> Truthy(number)
    ensures "number" in p ==> p["number"] == number.value
    ensures p.Keys <= {"timeRange", "startDate", "endDate", "number"}
  {
    var t := TmHistory.DestructuredRange(timeRange);
    var dated := if IsCustom(t, startDate, endDate)
                 then map["timeRange" := t, "startDate" := startDate.value, "endDate" := endDate.value]
                 else map["timeRange" := t];
    if Truthy(number) then dated["number" := number.value] else dated
  }

  /** `historyApi.getStatusHistory`'s statements: `params` starts as
      `{ timeRange }` and gains the dates in place. */
  method StatusHistoryParams(timeRange: Option<string>, startDate: Option<string>, endDate: Option<string>)
    returns (params: QueryParams)
    ensures params == HistoryParams(timeRange, startDate, endDate, None)
    ensures "number" !in params
  {
    var t := if timeRange.None? then "5d" else timeRange.value;
    params := map["timeRange" := t];
    if t == "custom" && Truthy(startDate) && Truthy(endDate) {
      params := params["startDate" := startDate.value];
      params := params["endDate" := endDate.value];
    }
  }

  /** `historyApi.getPhoneHistory`'s statements: as the status history, and
      `number` added in place when truthy. */
  method PhoneHistoryParams(timeRange: Option<string>, startDate: Option<string>, endDate: Option<string>,
                            number: Option<string>)
    returns (params: QueryParams)
    ensures params == HistoryParams(timeRange, startDate, endDate, number)
  {
    var t := if timeRange.None? then "5d" else timeRange.value;
    params := map["timeRange" := t];
    if t == "custom" && Truthy(startDate) && Truthy(endDate) {
      params := params["startDate" := startDate.value];
      params := params["endDate" := endDate.value];
    }
    if Truthy(number) {
      params := params["number" := number.value];
    }
  }

  /** How the server reads the query string the client sends. */
  function AsRequest(p: QueryParams): (req: HistoryRequest)
    ensures req.timeRange == Lookup(p, "timeRange") && req.number == Lookup(p, "number")
    ensures req.startDate == Lookup(p, "startDate") && req.endDate == Lookup(p, "endDate")
  {
    HistoryRequest(Lookup(p, "timeRange"), Lookup(p, "startDate"), Lookup(p, "endDate"), Lookup(p, "number"))
  }

  /** Client and server agree: the `telephony-monitor` server, given the
      parameters a history call builds, chooses the window the caller's
      arguments describe, and filters by number exactly when the caller
      gave a truthy number. */
  lemma ServerSeesClientWindow(timeRange: Option<string>, startDate: Option<string>, endDate: Option<string>,
                               number: Option<string>, now: int)
    ensures var req := AsRequest(HistoryParams(timeRange, startDate, endDate, number));
      && TmHistory.WindowClause(TmHistory.DestructuredRange(req.timeRange), req.startDate, req.endDate, now)
         == TmHistory.WindowClause(TmHistory.DestructuredRange(timeRange), startDate, endDate, now)
      && (Truthy(req.number) <==> Truthy(number))
  {
    var p := HistoryParams(timeRange, startDate, endDate, number);
    var req := AsRequest(p);
    var t := TmHistory.DestructuredRange(timeRange);
    assert TmHistory.DestructuredRange(req.timeRange) == t;
    assert IsCustom(t, req.startDate, req.endDate) <==> IsCustom(t, startDate, endDate);
  }

  /** Which client file a call comes from. */
  datatype Client = Dashboard | Monitor

  datatype Call =
    | GetGlobalStatus
    | GetCountryStatus(countryId: string)
    | GetStatusHistory(timeRange: Option<string>, startDate: Option<string>, endDate: Option<string>)
    | GetPhoneHistory(timeRange: Option<string>, startDate: Option<string>, endDate: Option<string>,
                      number: Option<string>)
    | GetPhoneNumbersByCountry(country: string)

  /** The path (below the base URL) and parameters a call requests. */
  function CallRequest(call: Call): (r: (string, QueryParams))
    ensures call.GetStatusHistory? ==>
      r == ("/history", HistoryParams(call.timeRange, call.startDate, call.endDate, None))
    ensures call.GetPhoneHistory? ==>
      r == ("/history/phone", HistoryParams(call.timeRange, call.startDate, call.endDate, call.number))
    ensures !call.GetStatusHistory? && !call.GetPhoneHistory? ==> r.1 == map[]
  {
    match call
    case GetGlobalStatus => ("/telemetry/global", map[])
    case GetCountryStatus(id) => ("/telemetry/country/" + id, map[])
    case GetStatusHistory(t, s, e) => ("/history", HistoryParams(t, s, e, None))
    case GetPhoneHistory(t, s, e, n) => ("/history/phone", HistoryParams(t, s, e, n))
    case GetPhoneNumbersByCountry(c) => ("/phone/country/" + c, map[])
  }

  /** A history call, whatever its arguments, reaches the `telephony-monitor`
      server as a request whose window is the one the arguments describe,
      filtered by number exactly for a phone-history call with a truthy
      number. */
  lemma HistoryCallServerWindow(call: Call, now: int)
    requires call.GetStatusHistory? || call.GetPhoneHistory?
    ensures var req := AsRequest(CallRequest(call).1);
      && TmHistory.WindowClause(TmHistory.DestructuredRange(req.timeRange), req.startDate, req.endDate, now)
         == TmHistory.WindowClause(TmHistory.DestructuredRange(call.timeRange), call.startDate, call.endDate, now)
      && (Truthy(req.number) <==> call.GetPhoneHistory? && Truthy(call.number))
  {
    var number := if call.GetPhoneHistory? then call.number else None;
    ServerSeesClientWindow(call.timeRange, call.startDate, call.endDate, number, now);
  }

  /** An axios response: its status and its parsed `data`. */
  datatype HttpResponse<D> = HttpResponse(status: int, data: D)

  /** What awaiting `apiClient.get` gives: a response, or a rejection. */
  datatype Fetched<D> = Responded(response: HttpResponse<D>) | Failed(error: string)

  /** What a call's promise settles to. */
  datatype Settled<D> = WholeResponse(response: HttpResponse<D>) | DataOnly(data: D) | Rejects(error: string)

  /** Whether the dashboard client hands back the whole response. */
  predicate ReturnsWhole(call: Call)
  {
    call.GetStatusHistory? || call.GetPhoneHistory? || call.GetPhoneNumbersByCountry?
  }

  /** A call's result: a failed request is rethrown with the same error by
      both clients; the monitor client always returns `response.data`; the
      dashboard client returns the whole response for the history and phone
      calls and `response.data` for the telemetry calls. */
  function Settle<D>(client: Client, call: Call, fetched: Fetched<D>): (s: Settled<D>)
    ensures fetched.Failed? ==> s == Rejects(fetched.error)
    ensures fetched.Responded? && client == Monitor ==> s == DataOnly(fetched.response.data)
    ensures fetched.Responded? && client == Dashboard ==>
      (s == WholeResponse(fetched.response) <==> ReturnsWhole(call))
      && (!ReturnsWhole(call) ==> s == DataOnly(fetched.response.data))
  {
    match fetched
    case Failed(e) => Rejects(e)
    case Responded(response) =>
      if client == Dashboard && ReturnsWhole(call) then WholeResponse(response) else DataOnly(response.data)
  }

  /** The two clients differ only in the wrapping: where the dashboard
      returns the whole response, the monitor returns its `data`. */
  lemma ClientsAgreeOnData<D>(call: Call, fetched: Fetched<D>)
    ensures var d := Settle(Dashboard, call, fetched);
      var m := Settle(Monitor, call, fetched);
      (d.WholeResponse? ==> m == DataOnly(d.response.data)) && (!d.WholeResponse? ==> d == m)
  {
  }

  /** The unreserved characters of section 2.3 of RFC 3986: the URL layer
      sends them as they are, where it would percent-encode a space or a
      non-ASCII character and cut the path at `?` or `#`. */
  predicate Unreserved(c: char)
  {
    ('A' <= c <= 'Z') || ('a' <= c <= 'z') || ('0' <= c <= '9') || c == '-' || c == '.' || c == '_' || c == '~'
  }

  /** An id that reaches the server's `req.url` unchanged: unreserved
      characters only, and not a dot segment, which URL resolution removes. */
  predicate SentVerbatim(countryId: string)
  {
    (forall i :: 0 <= i < |countryId| ==> Unreserved(countryId[i])) && countryId != "." && countryId != ".."
  }

  /** A country call sent to the deployment server, whose base URL ends in
      `/api`, gets back the record of the id it asked for, when the id
      travels in the path unchanged. */
  lemma CountryCallReachesDeployRoute(countryId: string, now: int)
    requires SentVerbatim(countryId)
    ensures ApiDeploy.Route("GET", "/api" + CallRequest(GetCountryStatus(countryId)).0, now).payload
      == ApiDeploy.CountryDetail(ApiDeploy.CountryRecord(countryId, now), ApiDeploy.SampleStats)
  {
    assert "/api" + ("/telemetry/country/" + countryId) == ApiDeploy.CountryPrefix + countryId;
    ApiDeploy.CountryIdFromUrl("GET", countryId, now);
  }
}
