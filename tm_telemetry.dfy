/** The telemetry endpoints of the `telephony-monitor` server
    (telephony-monitor/server/src/controllers/telemetryController.js): the
    global list with its defaulting of a missing recordset, and one
    country's record with its 404 decision. */
module TmTelemetry {
  import opened Base
  import opened Records

  const GlobalSql: string :=
    "SELECT id, country, region, status, last_updated, type, provider FROM statuses ORDER BY country"

  const ByCountrySql: string :=
    "SELECT id, country, region, status, last_updated, type, provider FROM statuses WHERE id = @countryId"

  /** The global query is sent without parameters. */
  function GlobalQuery(): Query
  {
    Query(GlobalSql, map[])
  }

  /** The route's id is passed under the key `countryId`. */
  function ByCountryQuery(countryId: string): (q: Query)
    ensures q.params == map["countryId" := Text(countryId)]
  {
    Query(ByCountrySql, map["countryId" := Text(countryId)])
  }

  /** `result.recordset || []`: a missing recordset reads as empty; an empty
      array is truthy and kept. */
  function RowsOrEmpty(r: QueryResult): (rows: seq<Row>)
    ensures r.recordset.Some? ==> rows == r.recordset.value
    ensures r.recordset.None? ==> rows == []
  {
    if r.recordset.Some? then r.recordset.value else []
  }

  /** `result.recordset?.length || 0`: the length, or 0 when the recordset
      is missing (a length of 0 is falsy and gives 0 as well). */
  function CountOrZero(r: QueryResult): (n: int)
    ensures r.recordset.Some? ==> n == |r.recordset.value|
    ensures r.recordset.None? ==> n == 0
  {
    if r.recordset.Some? && |r.recordset.value| != 0 then |r.recordset.value| else 0
  }

  /** `getGlobalTelemetry`: whenever the query resolves, 200 with
      `success: true` and a count equal to the number of rows sent, even
      with no recordset; a thrown query goes to `next`. */
  function GetGlobalTelemetry(db: Query -> Completion): (reply: Reply)
    ensures db(GlobalQuery()).Threw? <==> reply == ToNext
    ensures reply.Sent? ==>
      && reply.status == 200
      && reply.body == Listing(RowsOrEmpty(db(GlobalQuery()).result), None)
      && reply.body.count == Some(|reply.body.data.rows|)
  {
    var c := db(GlobalQuery());
    if c.Threw? then ToNext
    else Sent(200, Body(true, Some(CountOrZero(c.result)), Many(RowsOrEmpty(c.result)), None, None, None))
  }

  /** `getTelemetryByCountry`: 404 with a message exactly when the
      recordset is empty, 200 with the first record when there is one, and
      `next` when the query throws or carries no recordset. */
  function GetTelemetryByCountry(countryId: string, db: Query -> Completion): (reply: Reply)
    ensures var c := db(ByCountryQuery(countryId));
      && (reply == ToNext <==> !(c.Returned? && c.result.recordset.Some?))
      && (reply.Sent? ==> (reply.status == 404 <==> c.result.recordset.value == []))
      && (reply.Sent? && reply.status == 404 ==>
            reply.body == MessageBody("No telemetry data found for country ID " + countryId))
      && (reply.Sent? && reply.status != 404 ==>
            reply == Sent(200, Found(c.result.recordset.value[0])))
    ensures reply.Sent? ==> (reply.body.success <==> reply.status == 200)
  {
    var c := db(ByCountryQuery(countryId));
    if !(c.Returned? && c.result.recordset.Some?) then ToNext
    else if |c.result.recordset.value| == 0 then
      Sent(404, MessageBody("No telemetry data found for country ID " + countryId))
    else Sent(200, Found(c.result.recordset.value[0]))
  }
}
