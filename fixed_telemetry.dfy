/** The telemetry endpoints of the `fixed-server` variant
    (fixed-server/src/controllers/telemetryController.js): the global list of
    country statuses with its mock fallback, and one country's status with
    its not-found and error replies. */
module FixedTelemetry {
  import opened Base
  import opened Records
  import opened Random

  const GlobalStatusSql: string :=
    "SELECT id, country, region, status, uptime, total, active, provider, type, last_updated "
    + "FROM statuses ORDER BY country ASC"

  const CountryStatusSql: string :=
    "SELECT id, country, region, status, uptime, total, active, provider, type, last_updated "
    + "FROM statuses WHERE id = @id"

  /** The fixed country table of the mock, in order, with its regions. */
  const MockCountryTable: seq<(string, string)> :=
    [("Argentina", "Americas"), ("Brazil", "Americas"), ("Canada", "Americas"), ("USA", "Americas"),
     ("UK", "Europe"), ("Germany", "Europe"), ("France", "Europe"), ("Spain", "Europe"),
     ("Italy", "Europe"), ("China", "Asia Pacific"), ("Japan", "Asia Pacific"), ("Australia", "Asia Pacific")]

  const MockProviders: seq<string> := ["Provider A", "Provider B", "Provider C"]
  const MockLineTypes: seq<string> := ["VoIP", "Cellular", "Landline"]

  /** The draws behind one mock country, in the order made: status, total,
      active share, uptime, provider and type. `total` is 50 plus a draw
      below 100; `active` is `total` scaled by a factor between 0.8 and 1,
      that is an integer from `4 * total / 5` to `total`; `uptime` is 95 plus
      a draw below 5. */
  function MockCountryRow(index: nat, rnd: Source, pos: nat, now: int): (r: Row)
    requires index < |MockCountryTable|
    ensures r.MockCountry? && r.id == index + 1
    ensures (r.country, r.region) == MockCountryTable[index]
    ensures r.status in TrafficLights && r.provider in MockProviders && r.lineType in MockLineTypes
    ensures 50 <= r.total <= 149 && 95 <= r.uptime <= 99
    ensures 4 * r.total / 5 <= r.active <= r.total
  {
    var status := TrafficLights[Draw(rnd, pos, 3)];
    var total := Draw(rnd, pos + 1, 100) + 50;
    var low := 4 * total / 5;
    var active := low + Draw(rnd, pos + 2, total - low + 1);
    var uptime := 95 + Draw(rnd, pos + 3, 5);
    var provider := MockProviders[Draw(rnd, pos + 4, 3)];
    var lineType := MockLineTypes[Draw(rnd, pos + 5, 3)];
    MockCountry(index + 1, MockCountryTable[index].0, MockCountryTable[index].1, status, uptime,
                total, active, provider, lineType, now)
  }

  /** `generateMockCountryData()`: one row per table entry, in table order. */
  function GenerateMockCountryData(rnd: Source, pos: nat, now: int): (rows: seq<Row>)
    ensures |rows| == 12
    ensures forall i :: 0 <= i < 12 ==>
      rows[i].MockCountry? && rows[i].id == i + 1 && (rows[i].country, rows[i].region) == MockCountryTable[i]
      && rows[i].status in TrafficLights && rows[i].provider in MockProviders && rows[i].lineType in MockLineTypes
      && 50 <= rows[i].total <= 149 && 95 <= rows[i].uptime <= 99 && rows[i].active <= rows[i].total
  {
    seq(12, i requires 0 <= i < 12 => MockCountryRow(i, rnd, pos + 6 * i, now))
  }

  /** A resolved query with a recordset. */
  predicate Usable(c: Completion)
  {
    c.Returned? && c.result.recordset.Some?
  }

  /** `getGlobalStatus`: always 200 with `success: true` and a count equal to
      the rows sent, the table's rows or the mock countries with a note. */
  function GetGlobalStatus(db: Query -> Completion, rnd: Source, pos: nat, now: int): (reply: Reply)
    ensures reply.Sent? && reply.status == 200 && reply.body.success && reply.body.data.Many?
    ensures reply.body.count == Some(|reply.body.data.rows|)
    ensures Usable(db(Query(GlobalStatusSql, map[]))) ==>
      reply.body == Listing(db(Query(GlobalStatusSql, map[])).result.recordset.value, None)
    ensures !Usable(db(Query(GlobalStatusSql, map[]))) ==>
      reply.body.note == Some(MockNote) && reply.body.data.rows == GenerateMockCountryData(rnd, pos, now)
      && |reply.body.data.rows| == 12
  {
    var c := db(Query(GlobalStatusSql, map[]));
    if Usable(c) then Sent(200, Listing(c.result.recordset.value, None))
    else Sent(200, Listing(GenerateMockCountryData(rnd, pos, now), Some(MockNote)))
  }

  /** The query `getCountryStatus` sends: the route's id under `id`. */
  function CountryStatusQuery(countryId: string): (q: Query)
    ensures q.params == map["id" := Text(countryId)]
  {
    Query(CountryStatusSql, map["id" := Text(countryId)])
  }

  /** `getCountryStatus`: the first row when there is one, 404 when the
      recordset is empty, 500 with a generic error when the query fails. */
  function GetCountryStatus(countryId: string, db: Query -> Completion): (reply: Reply)
    ensures reply.Sent?
    ensures var c := db(CountryStatusQuery(countryId));
      && (reply.status == 200 <==> Usable(c) && c.result.recordset.value != [])
      && (reply.status == 200 ==> reply.body == Found(c.result.recordset.value[0]))
      && (reply.status == 404 <==> Usable(c) && c.result.recordset.value == [])
      && (reply.status == 404 ==> reply.body == ErrorBody("No country found with ID: " + countryId))
      && (reply.status == 500 <==> !Usable(c))
      && (reply.status == 500 ==> reply.body == ErrorBody("Failed to retrieve country status"))
    ensures reply.body.success <==> reply.status == 200
  {
    var c := db(CountryStatusQuery(countryId));
    if !Usable(c) then Sent(500, ErrorBody("Failed to retrieve country status"))
    else if |c.result.recordset.value| > 0 then Sent(200, Found(c.result.recordset.value[0]))
    else Sent(404, ErrorBody("No country found with ID: " + countryId))
  }
}
