/** The phone-number listing of the `telephony-monitor` server
    (telephony-monitor/server/src/controllers/phoneNumbersController.js): an
    exact-match count, a LIKE probe for similar names when that count is
    zero, then the listing itself and its 404 decision. */
module TmPhoneNumbers {
  import opened Base
  import opened Records

  const CountSql: string := "SELECT COUNT(*) as count FROM statuses_phone WHERE country = @country"

  const LikeSql: string := "SELECT DISTINCT country FROM statuses_phone WHERE country LIKE @countryPattern"

  const PhonesSql: string :=
    "SELECT id, phone_number, country, status, type, provider, last_updated FROM statuses_phone "
    + "WHERE country = @country ORDER BY phone_number"

  function CountQuery(country: string): Query
  {
    Query(CountSql, map["country" := Text(country)])
  }

  /** The probe's parameter is the country wrapped in `%`. */
  function LikeQuery(country: string): (q: Query)
    ensures q.params == map["countryPattern" := Text("%" + country + "%")]
  {
    Query(LikeSql, map["countryPattern" := Text("%" + country + "%")])
  }

  function PhonesQuery(country: string): Query
  {
    Query(PhonesSql, map["country" := Text(country)])
  }

  /** The three queries are different, so a database may answer each on its
      own. */
  lemma QueriesDistinct(country: string)
    ensures CountQuery(country) != LikeQuery(country)
    ensures CountQuery(country) != PhonesQuery(country)
    ensures LikeQuery(country) != PhonesQuery(country)
  {
    assert |CountSql| < |LikeSql| < |PhonesSql|;
  }

  /** The count check can be read: `recordset[0]` exists. Otherwise reading
      its `count` throws. */
  predicate CheckReadable(c: Completion)
  {
    c.Returned? && c.result.recordset.Some? && |c.result.recordset.value| > 0
  }

  /** `checkResult.recordset[0].count === 0`. */
  predicate NoExactMatch(c: Completion)
    requires CheckReadable(c)
  {
    var first := c.result.recordset.value[0];
    first.CountRow? && first.count == 0
  }

  /** Whether the probe is sent. */
  predicate Probes(country: string, db: Query -> Completion)
  {
    CheckReadable(db(CountQuery(country))) && NoExactMatch(db(CountQuery(country)))
  }

  /** A resolved query with a recordset. */
  predicate Usable(c: Completion)
  {
    c.Returned? && c.result.recordset.Some?
  }

  /** `getPhoneNumbersByCountry`: the reply, and the queries issued in
      order. After a readable count the handler always reaches the listing
      query unless the probe throws; the probe's rows are only logged. */
  function GetPhoneNumbersByCountry(country: string, db: Query -> Completion): (r: (Reply, seq<Query>))
    ensures |r.1| >= 1 && r.1[0] == CountQuery(country)
    ensures LikeQuery(country) in r.1 <==> Probes(country, db)
    ensures r.0.Sent? ==>
      && |r.1| == (if Probes(country, db) then 3 else 2)
      && r.1[|r.1| - 1] == PhonesQuery(country)
      && Usable(db(PhonesQuery(country)))
    ensures var c := db(CountQuery(country));
      !CheckReadable(c) ==> r == (ToNext, [CountQuery(country)])
    ensures Probes(country, db) && db(LikeQuery(country)).Threw? ==> r.0 == ToNext
    ensures r.0.Sent? ==> var rows := db(PhonesQuery(country)).result.recordset.value;
      && (r.0.status == 404 <==> rows == [])
      && (r.0.status == 404 ==> r.0.body == MessageBody("No phone numbers found for country " + country))
      && (r.0.status != 404 ==> r.0 == Sent(200, Listing(rows, None)))
    ensures (CheckReadable(db(CountQuery(country))) && !(Probes(country, db) && db(LikeQuery(country)).Threw?)
             && Usable(db(PhonesQuery(country)))) ==> r.0.Sent?
  {
    QueriesDistinct(country);
    var check := db(CountQuery(country));
    if !CheckReadable(check) then (ToNext, [CountQuery(country)])
    else
      var probe := NoExactMatch(check);
      var before := if probe then [CountQuery(country), LikeQuery(country)] else [CountQuery(country)];
      if probe && db(LikeQuery(country)).Threw? then (ToNext, before)
      else
        var calls := before + [PhonesQuery(country)];
        var result := db(PhonesQuery(country));
        if !Usable(result) then (ToNext, calls)
        else if |result.result.recordset.value| == 0 then
          (Sent(404, MessageBody("No phone numbers found for country " + country)), calls)
        else (Sent(200, Listing(result.result.recordset.value, None)), calls)
  }

  /** What the probe returns never changes the reply: two databases that
      answer the count and the listing alike, and whose probe either both
      throw or both resolve, get the same reply. */
  lemma LikeResultIrrelevant(country: string, db1: Query -> Completion, db2: Query -> Completion)
    requires db1(CountQuery(country)) == db2(CountQuery(country))
    requires db1(PhonesQuery(country)) == db2(PhonesQuery(country))
    requires db1(LikeQuery(country)).Threw? == db2(LikeQuery(country)).Threw?
    ensures GetPhoneNumbersByCountry(country, db1) == GetPhoneNumbersByCountry(country, db2)
  {
  }
}
