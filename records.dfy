/** The record shapes that flow between the database, the controllers and
    the HTTP layer. JavaScript rows are untyped objects; here every shape the
    core builds is one constructor of `Row`. Timestamps are integer
    milliseconds since the epoch; a `null` end time is `None`. */
module Records {
  import opened Base

  datatype Row =
      /** A row of `statuses`; `parsedId` is `None` where the source stores `NaN`. */
    | CountryStatus(parsedId: Option<int>, country: string, region: string, status: string,
                    lastUpdated: int, lineType: string, provider: string)
      /** A row of `statuses_phone` as the query shim's mock builds it. */
    | PhoneStatus(id: int, phoneNumber: string, country: string, status: string,
                  lineType: string, provider: string, lastUpdated: int)
      /** A row of `status_history`. */
    | StatusHistory(id: int, country: string, status: string, start: int, end: Option<int>,
                    lineType: string, provider: string)
      /** A row of `status_phone_history`. */
    | PhoneHistory(id: int, number: string, country: string, status: string, start: int,
                   end: Option<int>, lineType: string, provider: string)
      /** A generated phone-number record (no provider column). */
    | PhoneRecord(id: int, phoneNumber: string, country: string, status: string,
                  lineType: string, lastUpdated: int)
      /** A generated status-history incident with a region. */
    | MockHistory(id: int, country: string, region: string, status: string, start: int,
                  end: Option<int>, lineType: string)
      /** A generated phone-history incident. */
    | MockPhoneHistory(id: int, number: string, country: string, status: string, start: int,
                       end: Option<int>, lineType: string)
      /** A generated country status with line counts. */
    | MockCountry(id: int, country: string, region: string, status: string, uptime: int,
                  total: int, active: int, provider: string, lineType: string, lastUpdated: int)
      /** The single row of `SELECT COUNT(*) as count`. */
    | CountRow(count: int)
      /** The single column of `SELECT DISTINCT country`. */
    | CountryName(country: string)

  /** A query parameter as the controllers pass it: a string, a `Date`, or
      the `toISOString()` text of an instant. */
  datatype ParamValue = Text(text: string) | Instant(ms: int) | IsoText(ms: int)

  type Params = map<string, ParamValue>

  /** The query-string members the history routes read; a missing member
      is `None`. */
  datatype HistoryRequest =
    HistoryRequest(timeRange: Option<string>, startDate: Option<string>, endDate: Option<string>,
                   number: Option<string>)

  /** A parameterised query as it is handed to `executeQuery`. */
  datatype Query = Query(text: string, params: Params)

  /** What a query resolves to; a result object need not carry a recordset. */
  datatype QueryResult = QueryResult(recordset: Option<seq<Row>>)

  /** The outcome of awaiting `executeQuery`: it resolves or it throws. */
  datatype Completion = Returned(result: QueryResult) | Threw

  /** The `data` member of a JSON reply. */
  datatype Data = NoData | Many(rows: seq<Row>) | Single(row: Row)

  /** A JSON reply body; absent members are `None`. */
  datatype Body = Body(success: bool, count: Option<int>, data: Data, note: Option<string>,
                       error: Option<string>, message: Option<string>)

  /** What an Express handler does: answer with a status and a JSON body, or
      hand the error to `next`. */
  datatype Reply = Sent(status: int, body: Body) | ToNext

  /** `{ success: true, count: rows.length, data: rows }`, optionally with a note. */
  function Listing(rows: seq<Row>, note: Option<string>): (b: Body)
    ensures b.success && b.count == Some(|rows|) && b.data == Many(rows) && b.note == note
  {
    Body(true, Some(|rows|), Many(rows), note, None, None)
  }

  /** `{ success: false, error: text }`. */
  function ErrorBody(text: string): Body
  {
    Body(false, None, NoData, None, Some(text), None)
  }

  /** `{ success: false, message: text }`. */
  function MessageBody(text: string): Body
  {
    Body(false, None, NoData, None, None, Some(text))
  }

  /** `{ success: true, data: row }`. */
  function Found(row: Row): Body
  {
    Body(true, None, Single(row), None, None, None)
  }

  const MockNote: string := "Using mock data due to database error"

  const TrafficLights: seq<string> := ["green", "yellow", "red"]
  const IncidentStatuses: seq<string> := ["yellow", "red"]
  const PhoneLineTypes: seq<string> := ["Mobile", "Office", "Fax"]
}

/** `Math.random()` as an explicit stream of given draws. The source always
    uses a draw as `Math.floor(Math.random() * k)`, an integer below `k`;
    the model takes that integer as the `pos`-th element of the stream
    reduced below `k`. */
module Random {
  type Source = nat -> nat

  function Draw(rnd: Source, pos: nat, k: nat): (d: nat)
    requires k > 0
    ensures d < k
  {
    rnd(pos) % k
  }

  /** `Math.random() < 0.7`, taken as seven chances in ten. */
  predicate Chance70(rnd: Source, pos: nat)
  {
    Draw(rnd, pos, 10) < 7
  }
}

/** The preset history windows shared by the servers and the clients. */
module TimeRanges {
  import opened Base

  /** How far back a preset `timeRange` reaches: `'24h'` and `'48h'` by their
      hours, anything else (including `'5d'`) five days. */
  function PresetSpanMs(timeRange: string): (ms: int)
    ensures ms == 24 * MsPerHour <==> timeRange == "24h"
    ensures ms == 48 * MsPerHour <==> timeRange == "48h"
    ensures timeRange != "24h" && timeRange != "48h" ==> ms == 5 * MsPerDay
    ensures ms > 0
  {
    match timeRange
    case "24h" => 24 * MsPerHour
    case "48h" => 48 * MsPerHour
    case _ => 5 * MsPerDay
  }

  /** The custom window applies only to `'custom'` with both dates truthy. */
  predicate IsCustom(timeRange: string, startDate: Option<string>, endDate: Option<string>)
  {
    timeRange == "custom" && Truthy(startDate) && Truthy(endDate)
  }
}
