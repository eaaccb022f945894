/** The history endpoints of the `fixed-server` variant
    (fixed-server/src/controllers/historyController.js): the reporting window
    chosen from `timeRange`, the status and phone queries, and the random
    mock incidents served whenever the query fails. */
module FixedHistory {
  import opened Base
  import opened Strings
  import opened Records
  import opened Random
  import opened TimeRanges

  /** The window `[start, end]` the queries ask for, in milliseconds. */
  datatype Window = Window(start: int, end: int)

  /** `req.query.timeRange || '5d'`: every falsy value becomes `'5d'`. */
  function RangeOrDefault(timeRange: Option<string>): (t: string)
    ensures Truthy(timeRange) ==> t == timeRange.value
    ensures !Truthy(timeRange) ==> t == "5d"
  {
    if Truthy(timeRange) then timeRange.value else "5d"
  }

  /** The window the handlers compute. `parseDate` is `new Date(text)`, `None`
      for an Invalid Date. A custom range with an unparsable date has no
      window: printing it with `toISOString` throws, which sends the handler
      to its mock fallback. */
  function HistoryWindow(timeRange: string, startDate: Option<string>, endDate: Option<string>,
                         now: int, parseDate: string -> Option<int>): (w: Option<Window>)
    ensures IsCustom(timeRange, startDate, endDate) ==>
      (w.Some? <==> parseDate(startDate.value).Some? && parseDate(endDate.value).Some?)
      && (w.Some? ==> w.value == Window(parseDate(startDate.value).value, parseDate(endDate.value).value))
    ensures !IsCustom(timeRange, startDate, endDate) ==>
      w.Some? && w.value.end == now && w.value.end - w.value.start == PresetSpanMs(timeRange)
  {
    if IsCustom(timeRange, startDate, endDate) then
      var s, e := parseDate(startDate.value), parseDate(endDate.value);
      if s.Some? && e.Some? then Some(Window(s.value, e.value)) else None
    else
      Some(Window(now - PresetSpanMs(timeRange), now))
  }

  /** `'custom'` without both dates, and any unknown value, are five days. */
  lemma CustomWithoutDatesIsFiveDays(timeRange: string, startDate: Option<string>, endDate: Option<string>,
                                     now: int, parseDate: string -> Option<int>)
    requires !IsCustom(timeRange, startDate, endDate) && timeRange != "24h" && timeRange != "48h"
    ensures HistoryWindow(timeRange, startDate, endDate, now, parseDate) == Some(Window(now - 5 * MsPerDay, now))
  {
  }

  /** The window as the handlers build it: two dates, then `setHours` or
      `setDate` on the start. */
  method ComputeWindow(timeRange: string, startDate: Option<string>, endDate: Option<string>,
                       now: int, parseDate: string -> Option<int>) returns (w: Option<Window>)
    ensures w == HistoryWindow(timeRange, startDate, endDate, now, parseDate)
  {
    var start: Option<int>, end: Option<int>;
    if timeRange == "custom" && Truthy(startDate) && Truthy(endDate) {
      start := parseDate(startDate.value);
      end := parseDate(endDate.value);
    } else {
      end := Some(now);
      var s := now;
      match timeRange {
        case "24h" => s := s - 24 * MsPerHour;
        case "48h" => s := s - 48 * MsPerHour;
        case _ => s := s - 5 * MsPerDay;
      }
      start := Some(s);
    }
    if start.Some? && end.Some? {
      w := Some(Window(start.value, end.value));
    } else {
      w := None;
    }
  }

  const StatusHistorySql: string :=
    "SELECT id, country, region, status, status_start, status_end, type FROM status_history "
    + "WHERE status_start >= @startDate AND (status_end IS NULL OR status_end <= @endDate) "
    + "ORDER BY status_start DESC"

  const PhoneHistorySelect: string :=
    "SELECT id, number, country, status, status_start, status_end, type FROM status_phone_history "
    + "WHERE status_start >= @startDate AND (status_end IS NULL OR status_end <= @endDate)"

  const NumberCondition: string := " AND number = @number"

  const PhoneHistoryOrder: string := " ORDER BY status_start DESC"

  /** The query of `getStatusHistory` for a window. */
  function StatusHistoryQuery(w: Window): (q: Query)
    ensures q.params.Keys == {"startDate", "endDate"}
    ensures q.params["startDate"] == Instant(w.start) && q.params["endDate"] == Instant(w.end)
  {
    Query(StatusHistorySql, map["startDate" := Instant(w.start), "endDate" := Instant(w.end)])
  }

  /** The query and parameters of `getPhoneHistory`: the number condition and
      `params.number` are added exactly when `number` is truthy. */
  method PhoneHistoryQuery(w: Window, number: Option<string>) returns (q: Query)
    ensures q.params.Keys == if Truthy(number) then {"startDate", "endDate", "number"} else {"startDate", "endDate"}
    ensures q.params["startDate"] == Instant(w.start) && q.params["endDate"] == Instant(w.end)
    ensures Truthy(number) ==> q.params["number"] == Text(number.value)
    ensures q.text == PhoneHistorySelect + (if Truthy(number) then NumberCondition else "") + PhoneHistoryOrder
  {
    var text: string;
    var params: Params := map["startDate" := Instant(w.start), "endDate" := Instant(w.end)];
    if Truthy(number) {
      text := PhoneHistorySelect + NumberCondition + PhoneHistoryOrder;
      params := params["number" := Text(number.value)];
    } else {
      text := PhoneHistorySelect + PhoneHistoryOrder;
    }
    q := Query(text, params);
  }

  const MockCountryNames: seq<string> :=
    ["Argentina", "Brazil", "Canada", "Germany", "UK", "USA", "France", "Spain", "Italy"]
  const MockRegionNames: seq<string> := ["Americas", "Europe", "Asia Pacific", "EMEA"]
  const IncidentTypes: seq<string> := ["Outage", "Degradation", "Maintenance"]

  /** What every generated incident satisfies: it started on one of the last
      five days (`setDate(getDate() - k)`, k below 5), and either is ongoing
      or ended 1 to 12 hours after it started. */
  predicate IncidentTimes(start: int, end: Option<int>, now: int)
  {
    && now - 4 * MsPerDay <= start <= now
    && (start - now) % MsPerDay == 0
    && (end.Some? ==> start + MsPerHour <= end.value <= start + 12 * MsPerHour)
  }

  /** The start `k` days before `now`, and the 70%-likely end a draw of
      1 to 12 hours later; the second component is the next draw position. */
  function IncidentSpan(rnd: Source, pos: nat, now: int): (r: (int, Option<int>, nat))
    ensures IncidentTimes(r.0, r.1, now)
    ensures r.2 == if r.1.Some? then pos + 3 else pos + 2
  {
    var start := now - Draw(rnd, pos, 5) * MsPerDay;
    if Chance70(rnd, pos + 1) then (start, Some(start + (Draw(rnd, pos + 2, 12) + 1) * MsPerHour), pos + 3)
    else (start, None, pos + 2)
  }

  /** The fields of generated history row `id`. */
  predicate HistoryMockRow(row: Row, id: int, now: int)
  {
    && row.MockHistory? && row.id == id
    && row.status in IncidentStatuses && row.country in MockCountryNames
    && row.region in MockRegionNames && row.lineType in IncidentTypes
    && IncidentTimes(row.start, row.end, now)
  }

  /** One iteration of `generateMockHistoryData`: status, country, region,
      type, day offset, end chance and end hours, in the order drawn. */
  function MockHistoryRow(id: int, rnd: Source, pos: nat, now: int): (r: (Row, nat))
    ensures HistoryMockRow(r.0, id, now)
    ensures pos + 6 <= r.1 <= pos + 7
  {
    var status := IncidentStatuses[Draw(rnd, pos, 2)];
    var country := MockCountryNames[Draw(rnd, pos + 1, 9)];
    var region := MockRegionNames[Draw(rnd, pos + 2, 4)];
    var lineType := IncidentTypes[Draw(rnd, pos + 3, 3)];
    var span := IncidentSpan(rnd, pos + 4, now);
    (MockHistory(id, country, region, status, span.0, span.1, lineType), span.2)
  }

  /** `generateMockHistoryData(count)`. */
  method GenerateMockHistoryData(count: nat, rnd: Source, pos: nat, now: int) returns (data: seq<Row>)
    ensures |data| == count
    ensures forall j :: 0 <= j < |data| ==> HistoryMockRow(data[j], j + 1, now)
  {
    data := [];
    var next := pos;
    var i := 1;
    while i <= count
      invariant 1 <= i <= count + 1
      invariant |data| == i - 1
      invariant forall j :: 0 <= j < |data| ==> HistoryMockRow(data[j], j + 1, now)
    {
      var r := MockHistoryRow(i, rnd, next, now);
      data := data + [r.0];
      next := r.1;
      i := i + 1;
    }
  }

  /** The fields of generated phone-history row `id`. */
  predicate PhoneMockRow(row: Row, id: int, numberFilter: Option<string>, now: int)
  {
    && row.MockPhoneHistory? && row.id == id
    && row.status in IncidentStatuses && row.country in MockCountryNames
    && row.lineType in PhoneLineTypes
    && (Truthy(numberFilter) ==> row.number == numberFilter.value)
    && (!Truthy(numberFilter) ==> |row.number| > 1 && row.number[0] == '+')
    && IncidentTimes(row.start, row.end, now)
  }

  /** One iteration of `generateMockPhoneHistoryData`. The number draw happens
      only when no filter is given (`numberFilter || …` short-circuits). */
  function MockPhoneHistoryRow(id: int, numberFilter: Option<string>, rnd: Source, pos: nat, now: int)
    : (r: (Row, nat))
    ensures PhoneMockRow(r.0, id, numberFilter, now)
    ensures pos + 5 <= r.1 <= pos + 7
  {
    var status := IncidentStatuses[Draw(rnd, pos, 2)];
    var country := MockCountryNames[Draw(rnd, pos + 1, 9)];
    var lineType := PhoneLineTypes[Draw(rnd, pos + 2, 3)];
    var number := if Truthy(numberFilter) then numberFilter.value
                  else "+" + NatToString(Draw(rnd, pos + 3, 9000000000) + 1000000000);
    var spanAt := if Truthy(numberFilter) then pos + 3 else pos + 4;
    var span := IncidentSpan(rnd, spanAt, now);
    (MockPhoneHistory(id, number, country, status, span.0, span.1, lineType), span.2)
  }

  /** `generateMockPhoneHistoryData(numberFilter, count)`. */
  method GenerateMockPhoneHistoryData(numberFilter: Option<string>, count: nat, rnd: Source, pos: nat, now: int)
    returns (data: seq<Row>)
    ensures |data| == count
    ensures forall j :: 0 <= j < |data| ==> PhoneMockRow(data[j], j + 1, numberFilter, now)
  {
    data := [];
    var next := pos;
    var i := 1;
    while i <= count
      invariant 1 <= i <= count + 1
      invariant |data| == i - 1
      invariant forall j :: 0 <= j < |data| ==> PhoneMockRow(data[j], j + 1, numberFilter, now)
    {
      var r := MockPhoneHistoryRow(i, numberFilter, rnd, next, now);
      data := data + [r.0];
      next := r.1;
      i := i + 1;
    }
  }

  /** A query outcome the handlers can answer from: it resolved and carries
      a recordset (reading `recordset.length` of a missing one throws). */
  predicate Usable(c: Completion)
  {
    c.Returned? && c.result.recordset.Some?
  }

  /** `getStatusHistory`. `db` answers a query; `rnd` and `pos` feed the
      mock. The reply is always 200 with `success: true` and a count equal
      to the rows sent: the rows of the query when it worked, else 50 mock
      incidents with a note. `issued` lists the queries sent to `db`. */
  method GetStatusHistory(req: HistoryRequest, now: int, parseDate: string -> Option<int>,
                          db: Query -> Completion, rnd: Source, pos: nat)
    returns (reply: Reply, issued: seq<Query>)
    ensures reply.Sent? && reply.status == 200 && reply.body.success && reply.body.data.Many?
    ensures reply.body.count == Some(|reply.body.data.rows|)
    ensures var w := HistoryWindow(RangeOrDefault(req.timeRange), req.startDate, req.endDate, now, parseDate);
      && (w.Some? ==> issued == [StatusHistoryQuery(w.value)])
      && (w.None? ==> issued == [])
      && (w.Some? && Usable(db(issued[0])) ==>
            reply.body == Listing(db(issued[0]).result.recordset.value, None))
      && (w.None? || !Usable(db(issued[0])) ==>
            reply.body.note == Some(MockNote) && |reply.body.data.rows| == 50
            && forall j :: 0 <= j < 50 ==> HistoryMockRow(reply.body.data.rows[j], j + 1, now))
  {
    var timeRange := RangeOrDefault(req.timeRange);
    var w := ComputeWindow(timeRange, req.startDate, req.endDate, now, parseDate);
    issued := [];
    if w.Some? {
      var q := StatusHistoryQuery(w.value);
      issued := [q];
      var c := db(q);
      if Usable(c) {
        reply := Sent(200, Listing(c.result.recordset.value, None));
        return;
      }
    }
    var mockData := GenerateMockHistoryData(50, rnd, pos, now);
    reply := Sent(200, Listing(mockData, Some(MockNote)));
  }

  /** `getPhoneHistory`: as the status history, with the optional number
      filter in the query and 30 mock rows carrying that number. */
  method GetPhoneHistory(req: HistoryRequest, now: int, parseDate: string -> Option<int>,
                         db: Query -> Completion, rnd: Source, pos: nat)
    returns (reply: Reply, issued: seq<Query>)
    ensures reply.Sent? && reply.status == 200 && reply.body.success && reply.body.data.Many?
    ensures reply.body.count == Some(|reply.body.data.rows|)
    ensures |issued| <= 1
    ensures |issued| == 1 ==>
      issued[0].text == PhoneHistorySelect + (if Truthy(req.number) then NumberCondition else "") + PhoneHistoryOrder
    ensures |issued| == 1 ==>
      ("number" in issued[0].params <==> Truthy(req.number))
      && (Truthy(req.number) ==> issued[0].params["number"] == Text(req.number.value))
    ensures var w := HistoryWindow(RangeOrDefault(req.timeRange), req.startDate, req.endDate, now, parseDate);
      && (w.Some? <==> |issued| == 1)
      && (w.Some? ==> "startDate" in issued[0].params && "endDate" in issued[0].params
                      && issued[0].params["startDate"] == Instant(w.value.start)
                      && issued[0].params["endDate"] == Instant(w.value.end))
    ensures |issued| == 1 && Usable(db(issued[0])) ==>
      reply.body == Listing(db(issued[0]).result.recordset.value, None)
    ensures |issued| == 0 || !Usable(db(issued[0])) ==>
      reply.body.note == Some(MockNote) && |reply.body.data.rows| == 30
      && forall j :: 0 <= j < 30 ==> PhoneMockRow(reply.body.data.rows[j], j + 1, req.number, now)
  {
    var timeRange := RangeOrDefault(req.timeRange);
    var w := ComputeWindow(timeRange, req.startDate, req.endDate, now, parseDate);
    issued := [];
    if w.Some? {
      var q := PhoneHistoryQuery(w.value, req.number);
      issued := [q];
      var c := db(q);
      if Usable(c) {
        reply := Sent(200, Listing(c.result.recordset.value, None));
        return;
      }
    }
    var mockData := GenerateMockPhoneHistoryData(req.number, 30, rnd, pos, now);
    reply := Sent(200, Listing(mockData, Some(MockNote)));
  }
}
