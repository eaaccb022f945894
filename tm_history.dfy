/** The status-history endpoint of the `telephony-monitor` server
    (telephony-monitor/server/src/controllers/historyController.js): the
    WHERE clause and parameters chosen from `timeRange` and the optional
    custom dates, the query built around them, and the reply. */
module TmHistory {
  import opened Base
  import opened Strings
  import opened Records
  import opened TimeRanges

  /** The three ways an incident overlaps the custom range
      `[@startDate, @endDate]`: it starts inside, it ends inside, or it
      started before and is still open or ends after. */
  const CustomStartsInside: string := "status_start BETWEEN @startDate AND @endDate"
  const CustomEndsInside: string := "status_end BETWEEN @startDate AND @endDate"
  const CustomSpans: string := "status_start <= @startDate AND (status_end IS NULL OR status_end >= @endDate)"

  const CustomCondition: string :=
    "(" + CustomStartsInside + ")" + " OR " + "(" + CustomEndsInside + ")" + " OR " + "(" + CustomSpans + ")"

  /** The three ways an incident is active at some point since
      `@calculatedStartDate`: it starts after, it ends after, or it started
      before and is still open. */
  const PresetStartsAfter: string := "status_start >= @calculatedStartDate"
  const PresetEndsAfter: string := "status_end >= @calculatedStartDate"
  const PresetStillOpen: string := "status_start <= @calculatedStartDate AND status_end IS NULL"

  const PresetCondition: string :=
    "(" + PresetStartsAfter + ")" + " OR " + "(" + PresetEndsAfter + ")" + " OR " + "(" + PresetStillOpen + ")"

  const CustomWhere: string := "WHERE " + CustomCondition
  const PresetWhere: string := "WHERE " + PresetCondition

  const StatusHistorySelect: string :=
    "SELECT id, country, status, status_start, status_end, type, provider FROM status_history "

  const StatusHistoryOrder: string := " ORDER BY country, status_start DESC"

  /** `const { timeRange = '5d' } = req.query`: only a missing value is
      defaulted; an empty string stays empty. */
  function DestructuredRange(timeRange: Option<string>): (t: string)
    ensures timeRange.None? ==> t == "5d"
    ensures timeRange.Some? ==> t == timeRange.value
  {
    if timeRange.None? then "5d" else timeRange.value
  }

  /** The clause and parameters for a window: the overlap test with the two
      dates passed through as text, or the preset test with the ISO text of
      `now` minus 24 hours, 48 hours or 5 days. */
  function WindowClause(timeRange: string, startDate: Option<string>, endDate: Option<string>, now: int)
    : (c: (string, Params))
    ensures IsCustom(timeRange, startDate, endDate) ==>
      c.0 == CustomWhere && c.1 == map["startDate" := Text(startDate.value), "endDate" := Text(endDate.value)]
    ensures !IsCustom(timeRange, startDate, endDate) ==>
      c.0 == PresetWhere && c.1 == map["calculatedStartDate" := IsoText(now - PresetSpanMs(timeRange))]
    ensures c.0 != "" && StartsWith(c.0, "WHERE ")
  {
    assert StartsWith(CustomWhere, "WHERE ") && StartsWith(PresetWhere, "WHERE ") by {
      assert CustomWhere[..6] == "WHERE " && PresetWhere[..6] == "WHERE ";
    }
    if IsCustom(timeRange, startDate, endDate) then
      (CustomWhere, map["startDate" := Text(startDate.value), "endDate" := Text(endDate.value)])
    else
      (PresetWhere, map["calculatedStartDate" := IsoText(now - PresetSpanMs(timeRange))])
  }

  /** The handler's statements: `whereClause` and `params` start empty and
      are filled by the branch taken. */
  method BuildWindowClause(timeRange: string, startDate: Option<string>, endDate: Option<string>, now: int)
    returns (whereClause: string, params: Params)
    ensures (whereClause, params) == WindowClause(timeRange, startDate, endDate, now)
  {
    whereClause := "";
    params := map[];
    if timeRange == "custom" && Truthy(startDate) && Truthy(endDate) {
      whereClause := CustomWhere;
      params := params["startDate" := Text(startDate.value)];
      params := params["endDate" := Text(endDate.value)];
    } else {
      var calculatedStartDate: int;
      match timeRange {
        case "24h" => calculatedStartDate := now - 24 * 60 * 60 * 1000;
        case "48h" => calculatedStartDate := now - 48 * 60 * 60 * 1000;
        case _ => calculatedStartDate := now - 5 * 24 * 60 * 60 * 1000;
      }
      whereClause := PresetWhere;
      params := params["calculatedStartDate" := IsoText(calculatedStartDate)];
    }
  }

  /** Whichever way a server defaults a missing or empty `timeRange`, the
      preset window reaches back the same span. */
  lemma DefaultingAgrees(timeRange: Option<string>)
    ensures PresetSpanMs(DestructuredRange(timeRange)) == PresetSpanMs(if Truthy(timeRange) then timeRange.value else "5d")
    ensures !Truthy(timeRange) ==> PresetSpanMs(DestructuredRange(timeRange)) == 5 * MsPerDay
  {
  }

  /** The query for a clause: it reads `status_history` and ends ordered by
      country and then newest start first. */
  function StatusHistoryQuery(whereClause: string, params: Params): (q: Query)
    ensures StartsWith(q.text, StatusHistorySelect)
    ensures |q.text| >= |StatusHistoryOrder| && q.text[|q.text| - |StatusHistoryOrder|..] == StatusHistoryOrder
    ensures q.params == params
  {
    var text := StatusHistorySelect + whereClause + StatusHistoryOrder;
    assert text[..|StatusHistorySelect|] == StatusHistorySelect;
    assert text[|text| - |StatusHistoryOrder|..] == StatusHistoryOrder;
    Query(text, params)
  }

  /** `getStatusHistory`: one query; its rows with a count, or the error to
      `next` when the query throws or carries no recordset. */
  method GetStatusHistory(req: HistoryRequest, now: int, db: Query -> Completion)
    returns (reply: Reply, issued: Query)
    ensures var c := WindowClause(DestructuredRange(req.timeRange), req.startDate, req.endDate, now);
      issued == StatusHistoryQuery(c.0, c.1)
    ensures db(issued).Returned? && db(issued).result.recordset.Some? ==>
      reply == Sent(200, Listing(db(issued).result.recordset.value, None))
    ensures !(db(issued).Returned? && db(issued).result.recordset.Some?) ==> reply == ToNext
  {
    var timeRange := DestructuredRange(req.timeRange);
    var whereClause, params := BuildWindowClause(timeRange, req.startDate, req.endDate, now);
    issued := StatusHistoryQuery(whereClause, params);
    var result := db(issued);
    if result.Returned? && result.result.recordset.Some? {
      reply := Sent(200, Listing(result.result.recordset.value, None));
    } else {
      reply := ToNext;
    }
  }
}
