/** The phone-history endpoint of the `telephony-monitor` server
    (telephony-monitor/server/src/controllers/phoneHistoryController.js): the
    same time window as the status history, an optional filter on the phone
    number, the query over `status_phone_history`, and the reply. */
module TmPhoneHistory {
  import opened Base
  import opened Strings
  import opened Records
  import opened TimeRanges
  import opened SqlWhere
  import TmHistory

  /** The three disjuncts of the preset window, each in parentheses. */
  const PresetChain: Chain<Atom> :=
    Chain(Atom(TmHistory.PresetStartsAfter, true),
          [(OrOp, Atom(TmHistory.PresetEndsAfter, true)), (OrOp, Atom(TmHistory.PresetStillOpen, true))])

  /** The three disjuncts of the custom window, each in parentheses. */
  const CustomChain: Chain<Atom> :=
    Chain(Atom(TmHistory.CustomStartsInside, true),
          [(OrOp, Atom(TmHistory.CustomEndsInside, true)), (OrOp, Atom(TmHistory.CustomSpans, true))])

  /** The number filter, appended without parentheses. */
  const NumberAtom: Atom := Atom("number LIKE @number", false)

  const PhoneHistorySelect: string :=
    "SELECT id, number, country, status, status_start, status_end, type, provider FROM status_phone_history "

  const PhoneHistoryOrder: string := " ORDER BY number, status_start DESC"

  /** The window clause read as SQL: the disjuncts of the branch taken. */
  function WindowChain(timeRange: string, startDate: Option<string>, endDate: Option<string>, now: int)
    : (c: Chain<Atom>)
    ensures "WHERE " + RenderChain(c) == TmHistory.WindowClause(timeRange, startDate, endDate, now).0
    ensures |c.tail| == 2 && c.tail[0].0 == OrOp && c.tail[1].0 == OrOp
  {
    PresetChainRenders();
    CustomChainRenders();
    if IsCustom(timeRange, startDate, endDate) then CustomChain else PresetChain
  }

  lemma PresetChainRenders()
    ensures RenderChain(PresetChain) == TmHistory.PresetCondition
  {
    RenderPair(PresetChain.tail);
    assert RenderAtom(PresetChain.head) == "(" + TmHistory.PresetStartsAfter + ")";
    assert RenderAtom(PresetChain.tail[0].1) == "(" + TmHistory.PresetEndsAfter + ")";
    assert RenderAtom(PresetChain.tail[1].1) == "(" + TmHistory.PresetStillOpen + ")";
  }

  lemma CustomChainRenders()
    ensures RenderChain(CustomChain) == TmHistory.CustomCondition
  {
    RenderPair(CustomChain.tail);
    assert RenderAtom(CustomChain.head) == "(" + TmHistory.CustomStartsInside + ")";
    assert RenderAtom(CustomChain.tail[0].1) == "(" + TmHistory.CustomEndsInside + ")";
    assert RenderAtom(CustomChain.tail[1].1) == "(" + TmHistory.CustomSpans + ")";
  }

  lemma RenderPair(tail: seq<(Op, Atom)>)
    requires |tail| == 2
    ensures RenderTail(tail) == RenderOp(tail[0].0) + RenderAtom(tail[0].1) + RenderOp(tail[1].0) + RenderAtom(tail[1].1)
  {
    var rest := tail[1..];
    assert rest[1..] == [];
    assert RenderTail(rest) == RenderOp(rest[0].0) + RenderAtom(rest[0].1) + "";
    assert RenderTail(tail) == RenderOp(tail[0].0) + RenderAtom(tail[0].1) + RenderTail(rest);
  }

  /** A window clause holds of a row exactly when one of its three
      disjuncts does. */
  lemma WindowIsDisjunction(timeRange: string, startDate: Option<string>, endDate: Option<string>, now: int,
                            truth: string -> bool)
    ensures var c := WindowChain(timeRange, startDate, endDate, now);
      Eval(c, truth) <==> truth(c.head.text) || truth(c.tail[0].1.text) || truth(c.tail[1].1.text)
  {
    var c := WindowChain(timeRange, startDate, endDate, now);
    var vs := AtomValues(c.tail, truth);
    AllOrIsDisjunction(truth(c.head.text), vs);
    assert vs == [(OrOp, truth(c.tail[0].1.text)), (OrOp, truth(c.tail[1].1.text))];
  }

  /** The handler's statements as written: after the window branch, a
      truthy `number` appends ` AND number LIKE @number` (the `'WHERE '`
      alternative is never taken, the window clause being non-empty) and
      sets `number` to the value wrapped in `%`. */
  method BuildPhoneClauseAsWritten(timeRange: string, startDate: Option<string>, endDate: Option<string>,
                                   number: Option<string>, now: int)
    returns (whereClause: string, params: Params)
    ensures var w := TmHistory.WindowClause(timeRange, startDate, endDate, now);
      && (!Truthy(number) ==> (whereClause, params) == w)
      && (Truthy(number) ==> whereClause == w.0 + " AND " + "number LIKE @number"
                              && params == w.1["number" := Text("%" + number.value + "%")])
  {
    whereClause, params := TmHistory.BuildWindowClause(timeRange, startDate, endDate, now);
    assert whereClause != "";
    if Truthy(number) {
      whereClause := whereClause + (if whereClause != "" then " AND " else "WHERE ");
      whereClause := whereClause + "number LIKE @number";
      params := params["number" := Text("%" + number.value + "%")];
    }
  }

  /** The clause as written is the window's disjuncts followed by
      `AND number LIKE @number`, with no parentheses around the window. */
  lemma AsWrittenRenders(timeRange: string, startDate: Option<string>, endDate: Option<string>, now: int)
    ensures TmHistory.WindowClause(timeRange, startDate, endDate, now).0 + " AND " + "number LIKE @number"
      == "WHERE " + RenderChain(AppendAndAtom(WindowChain(timeRange, startDate, endDate, now), NumberAtom))
  {
    var c := WindowChain(timeRange, startDate, endDate, now);
    assert RenderAtom(NumberAtom) == "number LIKE @number";
    assert "WHERE " + RenderChain(c) + " AND " + "number LIKE @number"
      == "WHERE " + (RenderChain(c) + " AND " + "number LIKE @number");
  }

  /** Under the precedence of AND over OR, the clause as written filters
      by number only the third disjunct of the window. */
  lemma AsWrittenMeaning(timeRange: string, startDate: Option<string>, endDate: Option<string>, now: int,
                         truth: string -> bool)
    ensures var c := WindowChain(timeRange, startDate, endDate, now);
      Eval(AppendAndAtom(c, NumberAtom), truth) <==>
        truth(c.head.text) || truth(c.tail[0].1.text) || (truth(c.tail[1].1.text) && truth(NumberAtom.text))
  {
    var c := WindowChain(timeRange, startDate, endDate, now);
    var vs := AtomValues(c.tail, truth);
    var h, b, d, n := truth(c.head.text), truth(c.tail[0].1.text), truth(c.tail[1].1.text), truth(NumberAtom.text);
    assert vs == [(OrOp, b), (OrOp, d)];
    assert vs[1..] == [(OrOp, d)] && vs[1..][1..] == [];
    assert PrecedenceLastAnd(d, vs[1..][1..], n) == (d && n);
    assert PrecedenceLastAnd(b, vs[1..], n) == (b || (d && n));
    assert PrecedenceLastAnd(h, vs, n) == (h || b || (d && n));
  }

  /** For every window a row of another number is selected: one whose
      first disjunct holds (for a preset, an incident started inside the
      window) and whose number does not match. */
  lemma AsWrittenAdmitsOtherNumbers(timeRange: string, startDate: Option<string>, endDate: Option<string>, now: int)
    ensures var c := WindowChain(timeRange, startDate, endDate, now);
      var truth := (t: string) => t == c.head.text;
      Eval(AppendAndAtom(c, NumberAtom), truth) && !truth(NumberAtom.text)
  {
    var c := WindowChain(timeRange, startDate, endDate, now);
    var truth := (t: string) => t == c.head.text;
    AsWrittenMeaning(timeRange, startDate, endDate, now, truth);
    assert c.head.text != NumberAtom.text;
  }

  /** The clause as meant: the window in parentheses, then the number
      filter, so that every row returned matches the number. */
  method BuildPhoneClause(timeRange: string, startDate: Option<string>, endDate: Option<string>,
                          number: Option<string>, now: int)
    returns (whereClause: string, params: Params)
    ensures var w := TmHistory.WindowClause(timeRange, startDate, endDate, now);
      && (!Truthy(number) ==> (whereClause, params) == w)
      && (Truthy(number) ==> whereClause == "WHERE (" + w.0[6..] + ") AND number LIKE @number"
                              && params == w.1["number" := Text("%" + number.value + "%")])
  {
    whereClause, params := TmHistory.BuildWindowClause(timeRange, startDate, endDate, now);
    if Truthy(number) {
      whereClause := "WHERE (" + whereClause[6..] + ") AND number LIKE @number";
      params := params["number" := Text("%" + number.value + "%")];
    }
  }

  /** The corrected clause is the window's disjuncts in parentheses
      followed by `AND number LIKE @number`. */
  lemma CorrectedRenders(timeRange: string, startDate: Option<string>, endDate: Option<string>, now: int)
    ensures var w := TmHistory.WindowClause(timeRange, startDate, endDate, now).0;
      "WHERE (" + w[6..] + ") AND number LIKE @number"
      == "WHERE " + RenderOuter(GroupAndAtom(WindowChain(timeRange, startDate, endDate, now), NumberAtom))
  {
    var w := TmHistory.WindowClause(timeRange, startDate, endDate, now).0;
    var c := WindowChain(timeRange, startDate, endDate, now);
    assert w[6..] == RenderChain(c);
    assert RenderAtom(NumberAtom) == "number LIKE @number";
    GroupText(RenderChain(c));
  }

  /** Moving the opening parenthesis across the `WHERE ` prefix. */
  lemma GroupText(x: string)
    ensures "WHERE (" + x + ") AND number LIKE @number" == "WHERE " + ("(" + x + ") AND " + "number LIKE @number")
  {
    assert "WHERE (" == "WHERE " + "(";
    assert ") AND number LIKE @number" == ") AND " + "number LIKE @number";
  }

  /** The corrected clause holds of a row exactly when the window does and
      the number matches. */
  lemma CorrectedMeaning(timeRange: string, startDate: Option<string>, endDate: Option<string>, now: int,
                         truth: string -> bool)
    ensures var c := WindowChain(timeRange, startDate, endDate, now);
      EvalOuter(GroupAndAtom(c, NumberAtom), truth) <==>
        (truth(c.head.text) || truth(c.tail[0].1.text) || truth(c.tail[1].1.text)) && truth(NumberAtom.text)
  {
    WindowIsDisjunction(timeRange, startDate, endDate, now, truth);
  }

  /** The query for a clause: it reads `status_phone_history` and ends
      ordered by number and then newest start first. */
  function PhoneHistoryQuery(whereClause: string, params: Params): (q: Query)
    ensures StartsWith(q.text, PhoneHistorySelect)
    ensures |q.text| >= |PhoneHistoryOrder| && q.text[|q.text| - |PhoneHistoryOrder|..] == PhoneHistoryOrder
    ensures q.params == params
  {
    var text := PhoneHistorySelect + whereClause + PhoneHistoryOrder;
    assert text[..|PhoneHistorySelect|] == PhoneHistorySelect;
    assert text[|text| - |PhoneHistoryOrder|..] == PhoneHistoryOrder;
    Query(text, params)
  }

  /** `getPhoneHistory`, with the corrected clause: one query carrying
      `number` exactly when a number is given; its rows with a count, or
      the error to `next` when the query throws or carries no recordset. */
  method GetPhoneHistory(req: HistoryRequest, now: int, db: Query -> Completion)
    returns (reply: Reply, issued: Query)
    ensures "number" in issued.params <==> Truthy(req.number)
    ensures !Truthy(req.number) ==>
      var w := TmHistory.WindowClause(TmHistory.DestructuredRange(req.timeRange), req.startDate, req.endDate, now);
      issued == PhoneHistoryQuery(w.0, w.1)
    ensures Truthy(req.number) ==>
      var w := TmHistory.WindowClause(TmHistory.DestructuredRange(req.timeRange), req.startDate, req.endDate, now);
      issued == PhoneHistoryQuery("WHERE (" + w.0[6..] + ") AND number LIKE @number",
                                  w.1["number" := Text("%" + req.number.value + "%")])
    ensures db(issued).Returned? && db(issued).result.recordset.Some? ==>
      reply == Sent(200, Listing(db(issued).result.recordset.value, None))
    ensures !(db(issued).Returned? && db(issued).result.recordset.Some?) ==> reply == ToNext
  {
    var timeRange := TmHistory.DestructuredRange(req.timeRange);
    var whereClause, params := BuildPhoneClause(timeRange, req.startDate, req.endDate, req.number, now);
    issued := PhoneHistoryQuery(whereClause, params);
    var result := db(issued);
    if result.Returned? && result.result.recordset.Some? {
      reply := Sent(200, Listing(result.result.recordset.value, None));
    } else {
      reply := ToNext;
    }
  }
}
