/** The query shim of the `server` variant (server/src/services/database.js):
    a module-level connection pool and failure flag, `executeQuery` that
    falls back to mock data whenever the live database cannot answer, and
    the mock data chosen by looking at the SQL text and the parameters. */
module Database {
  import opened Base
  import opened Strings
  import opened Records

  /** The shim's parameters: names to the strings the routes pass. */
  type ShimParams = map<string, string>

  /** `params.key` is truthy. */
  predicate ParamSet(params: ShimParams, key: string)
  {
    key in params && params[key] != ""
  }

  const HistoryCountries: seq<string> :=
    ["United States", "Germany", "Japan", "Brazil", "Australia", "France", "South Africa"]
  const HistoryProviders: seq<string> := ["Provider A", "Provider B", "Provider C"]
  const HistoryLineTypes: seq<string> := ["Website", "Sales", "Support"]
  const HistoryNumbers: seq<string> :=
    ["+1234567890", "+9876543210", "+1122334455",
     "+4455667788", "+8877665544", "+6677889900",
     "+3344556677", "+7788990011", "+2233445566"]
  const MockRegions: seq<string> := ["EMEA", "APAC", "Americas"]

  /** Row `i` of either history starts `i` half-days before `now`. */
  function HistoryStart(now: int, i: nat): int
  {
    now - i * (MsPerDay / 2)
  }

  /** Every fourth row is ongoing; the others last one to three days. */
  function HistoryEnd(now: int, i: nat): Option<int>
  {
    if i % 4 == 0 then None else Some(HistoryStart(now, i) + MsPerDay * (1 + i % 3))
  }

  /** What both history generators promise of row `i`: its id, the
      alternating incident colour, the country, type and provider cycling
      through their lists, a start `i` half-days before `now`, and an end
      that is missing exactly for every fourth row and otherwise one, two or
      three days after the start as `i % 3` says. */
  predicate IncidentShape(id: int, status: string, country: string, start: int, end: Option<int>,
                          lineType: string, provider: string, now: int, i: nat)
  {
    && id == i + 1
    && status == (if i % 2 == 0 then "yellow" else "red")
    && country == HistoryCountries[i % |HistoryCountries|]
    && lineType == HistoryLineTypes[i % |HistoryLineTypes|]
    && provider == HistoryProviders[i % |HistoryProviders|]
    && start == HistoryStart(now, i)
    && (end.None? <==> i % 4 == 0)
    && (end.Some? ==> end.value - start == MsPerDay * (1 + i % 3))
  }

  /** Later rows start no later than earlier ones. */
  lemma HistoryStartMonotone(now: int, i: nat, j: nat)
    requires i <= j
    ensures HistoryStart(now, j) <= HistoryStart(now, i)
  {
    assert j * (MsPerDay / 2) == i * (MsPerDay / 2) + (j - i) * (MsPerDay / 2);
  }

  /** Row `i` of `status_history` mock data. */
  function StatusHistoryRow(now: int, i: nat): (r: Row)
    ensures r.StatusHistory?
    ensures IncidentShape(r.id, r.status, r.country, r.start, r.end, r.lineType, r.provider, now, i)
  {
    StatusHistory(i + 1, HistoryCountries[i % 7], IncidentStatuses[i % 2], HistoryStart(now, i),
                  HistoryEnd(now, i), HistoryLineTypes[i % 3], HistoryProviders[i % 3])
  }

  /** Row `i` of `status_phone_history` mock data. */
  function PhoneHistoryRow(now: int, i: nat): (r: Row)
    ensures r.PhoneHistory?
    ensures IncidentShape(r.id, r.status, r.country, r.start, r.end, r.lineType, r.provider, now, i)
    ensures r.number == HistoryNumbers[i % |HistoryNumbers|]
  {
    PhoneHistory(i + 1, HistoryNumbers[i % 9], HistoryCountries[i % 7], IncidentStatuses[i % 2],
                 HistoryStart(now, i), HistoryEnd(now, i), HistoryLineTypes[i % 3], HistoryProviders[i % 3])
  }

  /** The 67 fixed rows of `status_history` mock data, newest first. */
  function GenerateStatusHistoryData(now: int): (rows: seq<Row>)
    ensures |rows| == 67
    ensures forall i :: 0 <= i < |rows| ==>
      rows[i].StatusHistory?
      && IncidentShape(rows[i].id, rows[i].status, rows[i].country, rows[i].start, rows[i].end,
                       rows[i].lineType, rows[i].provider, now, i)
    ensures forall i, j :: 0 <= i <= j < |rows| ==> rows[j].start <= rows[i].start
  {
    var rows := seq(67, i requires 0 <= i < 67 => StatusHistoryRow(now, i));
    forall i, j | 0 <= i <= j < 67
      ensures rows[j].start <= rows[i].start
    {
      HistoryStartMonotone(now, i, j);
    }
    rows
  }

  /** The 60 fixed rows of `status_phone_history` mock data, newest first,
      cycling through the nine numbers. */
  function GeneratePhoneHistoryData(now: int): (rows: seq<Row>)
    ensures |rows| == 60
    ensures forall i :: 0 <= i < |rows| ==>
      rows[i].PhoneHistory?
      && IncidentShape(rows[i].id, rows[i].status, rows[i].country, rows[i].start, rows[i].end,
                       rows[i].lineType, rows[i].provider, now, i)
      && rows[i].number == HistoryNumbers[i % |HistoryNumbers|]
    ensures forall i, j :: 0 <= i <= j < |rows| ==> rows[j].start <= rows[i].start
  {
    var rows := seq(60, i requires 0 <= i < 60 => PhoneHistoryRow(now, i));
    forall i, j | 0 <= i <= j < 60
      ensures rows[j].start <= rows[i].start
    {
      HistoryStartMonotone(now, i, j);
    }
    rows
  }

  /** The three phone lines returned for a `statuses_phone` query. */
  function MockPhoneRows(country: string, now: int): seq<Row>
  {
    [ PhoneStatus(1, "+1234567890", country, "green", "Website", "Provider A", now),
      PhoneStatus(2, "+9876543210", country, "red", "Sales", "Provider B", now),
      PhoneStatus(3, "+1122334455", country, "yellow", "Support", "Provider C", now) ]
  }

  /** The ten countries returned for any other `statuses` query. */
  function MockCountries(now: int): seq<Row>
  {
    seq(10, i requires 0 <= i < 10 =>
      CountryStatus(Some(i + 1), "Country " + NatToString(i + 1), MockRegions[i % 3], TrafficLights[i % 3],
                    now, "Test", "Provider " + NatToString(i % 3 + 1)))
  }

  /** The two narrower texts the dispatch tests first both contain `statuses`. */
  lemma StatusesNarrowings(query: string)
    ensures Contains(query, "statuses_phone") ==> Contains(query, "statuses")
    ensures Contains(query, "statuses WHERE") ==> Contains(query, "statuses")
  {
    assert StartsWith("statuses_phone", "statuses");
    PrefixContained("statuses_phone", "statuses");
    assert StartsWith("statuses WHERE", "statuses");
    PrefixContained("statuses WHERE", "statuses");
    if Contains(query, "statuses_phone") {
      ContainsTransitive(query, "statuses_phone", "statuses");
    }
    if Contains(query, "statuses WHERE") {
      ContainsTransitive(query, "statuses WHERE", "statuses");
    }
  }

  /** `getMockData`: the first test that matches decides the recordset. */
  function GetMockData(query: string, params: ShimParams, now: int): (r: QueryResult)
    ensures r.recordset.Some?
    ensures Contains(query, "statuses_phone") && ParamSet(params, "country") ==>
      |r.recordset.value| == 3
      && forall row :: row in r.recordset.value ==> row.PhoneStatus? && row.country == params["country"]
    ensures !(Contains(query, "statuses_phone") && ParamSet(params, "country"))
            && Contains(query, "statuses WHERE") && ParamSet(params, "countryId") ==>
      |r.recordset.value| == 1 && r.recordset.value[0].CountryStatus?
      && r.recordset.value[0].parsedId == ParseInt(params["countryId"])
    ensures !(Contains(query, "statuses_phone") && ParamSet(params, "country"))
            && !(Contains(query, "statuses WHERE") && ParamSet(params, "countryId"))
            && Contains(query, "statuses") ==>
      |r.recordset.value| == 10
      && forall i :: 0 <= i < 10 ==>
        r.recordset.value[i].CountryStatus? && r.recordset.value[i].parsedId == Some(i + 1)
        && r.recordset.value[i].status == TrafficLights[i % 3]
        && r.recordset.value[i].region == MockRegions[i % 3]
    ensures !Contains(query, "statuses") && Contains(query, "status_history") ==>
      r.recordset.value == GenerateStatusHistoryData(now)
    ensures !Contains(query, "statuses") && !Contains(query, "status_history")
            && Contains(query, "status_phone_history") ==>
      r.recordset.value == GeneratePhoneHistoryData(now)
    ensures !Contains(query, "statuses") && !Contains(query, "status_history")
            && !Contains(query, "status_phone_history") ==>
      r.recordset.value == []
  {
    StatusesNarrowings(query);
    if Contains(query, "statuses_phone") && ParamSet(params, "country") then
      QueryResult(Some(MockPhoneRows(params["country"], now)))
    else if Contains(query, "statuses WHERE") && ParamSet(params, "countryId") then
      QueryResult(Some([CountryStatus(ParseInt(params["countryId"]), "Sample Country", "Sample Region",
                                      "green", now, "Test", "Sample Provider")]))
    else if Contains(query, "statuses") then
      QueryResult(Some(MockCountries(now)))
    else if Contains(query, "status_history") then
      QueryResult(Some(GenerateStatusHistoryData(now)))
    else if Contains(query, "status_phone_history") then
      QueryResult(Some(GeneratePhoneHistoryData(now)))
    else
      QueryResult(Some([]))
  }

  /** The mock recordset is empty exactly when the text names none of the
      tables `statuses`, `status_history` and `status_phone_history`; in
      particular every one of the four schema tables gets rows. */
  lemma MockEmptyExactlyForUnknownTables(query: string, params: ShimParams, now: int)
    ensures GetMockData(query, params, now).recordset.value == [] <==>
      !Contains(query, "statuses") && !Contains(query, "status_history")
      && !Contains(query, "status_phone_history")
    ensures Contains(query, "statuses_phone") || Contains(query, "statuses")
            || Contains(query, "status_history") || Contains(query, "status_phone_history") ==>
      GetMockData(query, params, now).recordset.value != []
  {
    StatusesNarrowings(query);
  }

  /** The module-level state of database.js: whether `pool` holds a
      connected pool, and the `connectionFailed` flag. */
  class DbService {
    var pool: bool
    var connectionFailed: bool

    /** Module load: no pool yet, the flag starts `false`. */
    constructor ()
      ensures !pool && !connectionFailed
    {
      pool := false;
      connectionFailed := false;
    }

    /** `setupDbConnection`; `connects` is whether `ConnectionPool.connect`
        resolves. It never throws; a failed attempt leaves `pool` as it was,
        because the assignment happens only after the await. */
    method SetupDbConnection(connects: bool)
      modifies this
      ensures connectionFailed == !connects
      ensures pool == (old(pool) || connects)
    {
      if connects {
        pool := true;
        connectionFailed := false;
      } else {
        connectionFailed := true;
      }
    }

    /** `executeQuery`; `live` is what the pool would answer to this query
        with these parameters. `usedPool` records whether a request was
        issued. The result is never an error: a failed flag, a missing pool
        or a live failure all give `getMockData(query, params)`. */
    method ExecuteQuery(query: string, params: ShimParams, live: Completion, now: int)
      returns (result: QueryResult, usedPool: bool)
      ensures usedPool <==> !connectionFailed && pool
      ensures !usedPool ==> result == GetMockData(query, params, now)
      ensures usedPool && live.Returned? ==> result == live.result
      ensures usedPool && live.Threw? ==> result == GetMockData(query, params, now)
    {
      if connectionFailed {
        return GetMockData(query, params, now), false;
      }
      if !pool {
        return GetMockData(query, params, now), false;
      }
      usedPool := true;
      match live
      case Returned(r) => result := r;
      case Threw => result := GetMockData(query, params, now);
    }
  }
}
