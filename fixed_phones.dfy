/** The phone endpoints of the `fixed-server` variant
    (fixed-server/src/controllers/phoneNumbersController.js): listing a
    country's phone lines, looking one up by id, and the mock lines meant to
    stand in when the database fails. Both handlers are `async` functions
    whose result the route sends; `Outcome` says whether the promise
    resolves with a body or rejects. */
module FixedPhones {
  import opened Base
  import opened Records
  import opened Random
  import ServerPhones

  datatype Outcome = Resolves(body: Body) | Rejects

  const PhonesByCountrySql: string :=
    "SELECT id, phone_number, country, status, type, last_updated FROM statuses_phone WHERE country = @country"

  const PhoneByIdSql: string :=
    "SELECT id, phone_number, country, status, type, last_updated FROM statuses_phone WHERE id = @id"

  /** The lines `generateMockPhoneData` builds: record `j + 1` from the three
      draws starting at `pos + 3 * j`, every one in `countryName`. */
  function MockPhoneBatch(countryName: string, count: nat, rnd: Source, pos: nat, now: int): (rows: seq<Row>)
    ensures |rows| == count && ServerPhones.WellFormedBatch(rows, countryName)
  {
    seq(count, j requires 0 <= j < count => ServerPhones.GeneratedPhone(countryName, j + 1, rnd, pos + 3 * j, now))
  }

  /** `generateMockPhoneData(countryName, count)`: the `for` loop pushing
      `count` records. */
  method GenerateMockPhoneData(countryName: string, count: nat, rnd: Source, pos: nat, now: int)
    returns (phoneNumbers: seq<Row>)
    ensures phoneNumbers == MockPhoneBatch(countryName, count, rnd, pos, now)
    ensures |phoneNumbers| == count
    ensures forall j :: 0 <= j < count ==>
      phoneNumbers[j].id == j + 1 && phoneNumbers[j].country == countryName
      && phoneNumbers[j].status in TrafficLights && phoneNumbers[j].lineType in PhoneLineTypes
  {
    phoneNumbers := [];
    var i := 1;
    while i <= count
      invariant 1 <= i <= count + 1
      invariant |phoneNumbers| == i - 1
      invariant forall j :: 0 <= j < i - 1 ==>
        phoneNumbers[j] == ServerPhones.GeneratedPhone(countryName, j + 1, rnd, pos + 3 * j, now)
    {
      phoneNumbers := phoneNumbers + [ServerPhones.GeneratedPhone(countryName, i, rnd, pos + 3 * (i - 1), now)];
      i := i + 1;
    }
  }

  /** The query `getPhoneNumbersByCountry` sends. */
  function PhonesByCountryQuery(countryName: string): (q: Query)
    ensures q.params == map["country" := Text(countryName)]
  {
    Query(PhonesByCountrySql, map["country" := Text(countryName)])
  }

  /** A resolved query with a recordset; anything else makes the handler
      throw inside its `try`. */
  predicate Usable(c: Completion)
  {
    c.Returned? && c.result.recordset.Some?
  }

  /** `getPhoneNumbersByCountry` as written. Its `catch` block refers to
      `countryName`, a `const` of the `try` block and so not in scope there;
      evaluating it throws a ReferenceError, and the promise rejects instead
      of resolving with mock data. */
  function GetPhoneNumbersByCountryAsWritten(countryName: string, db: Query -> Completion): (o: Outcome)
    ensures Usable(db(PhonesByCountryQuery(countryName))) ==>
      o == Resolves(Listing(db(PhonesByCountryQuery(countryName)).result.recordset.value, None))
  {
    var c := db(PhonesByCountryQuery(countryName));
    if Usable(c) then Resolves(Listing(c.result.recordset.value, None))
    else Rejects
  }

  /** Whenever the query fails, the handler as written rejects: the mock
      fallback it contains is never returned. */
  lemma FallbackNeverReached(countryName: string, db: Query -> Completion)
    requires !Usable(db(PhonesByCountryQuery(countryName)))
    ensures GetPhoneNumbersByCountryAsWritten(countryName, db) == Rejects
  {
  }

  /** A database that always fails, with which the as-written handler rejects. */
  lemma FallbackRejectsOnFailingDatabase()
    ensures GetPhoneNumbersByCountryAsWritten("Canada", (q: Query) => Threw) == Rejects
  {
  }

  /** `getPhoneNumbersByCountry` as its fallback is meant to work: the
      query's rows when it succeeds, else five mock lines of the requested
      country with the mock note. It always resolves with `success: true`
      and a count equal to the rows sent. */
  function GetPhoneNumbersByCountry(countryName: string, db: Query -> Completion, rnd: Source, pos: nat, now: int)
    : (o: Outcome)
    ensures o.Resolves? && o.body.success && o.body.data.Many?
    ensures o.body.count == Some(|o.body.data.rows|)
    ensures Usable(db(PhonesByCountryQuery(countryName))) ==>
      o.body == Listing(db(PhonesByCountryQuery(countryName)).result.recordset.value, None)
    ensures !Usable(db(PhonesByCountryQuery(countryName))) ==>
      o.body.note == Some(MockNote) && |o.body.data.rows| == 5
      && forall r :: r in o.body.data.rows ==> r.PhoneRecord? && r.country == countryName
  {
    var c := db(PhonesByCountryQuery(countryName));
    if Usable(c) then Resolves(Listing(c.result.recordset.value, None))
    else
      var mockData := MockPhoneBatch(countryName, 5, rnd, pos, now);
      assert forall r :: r in mockData ==> r.PhoneRecord? && r.country == countryName by {
        forall r | r in mockData ensures r.PhoneRecord? && r.country == countryName {
          var j :| 0 <= j < 5 && mockData[j] == r;
        }
      }
      Resolves(Listing(mockData, Some(MockNote)))
  }

  /** The corrected handler differs from the written one only where the
      written one rejects. */
  lemma CorrectedAgreesWhereWrittenResolves(countryName: string, db: Query -> Completion, rnd: Source, pos: nat, now: int)
    ensures GetPhoneNumbersByCountryAsWritten(countryName, db).Resolves? ==>
      GetPhoneNumbersByCountryAsWritten(countryName, db) == GetPhoneNumbersByCountry(countryName, db, rnd, pos, now)
  {
  }

  /** The query `getPhoneDetails` sends. */
  function PhoneByIdQuery(phoneId: string): (q: Query)
    ensures q.params == map["id" := Text(phoneId)]
  {
    Query(PhoneByIdSql, map["id" := Text(phoneId)])
  }

  /** `getPhoneDetails`: it never rejects. The first row when the recordset
      is non-empty, not-found when it is empty, a generic error otherwise. */
  function GetPhoneDetails(phoneId: string, db: Query -> Completion): (o: Outcome)
    ensures o.Resolves?
    ensures var c := db(PhoneByIdQuery(phoneId));
      && (o.body.success <==> Usable(c) && |c.result.recordset.value| > 0)
      && (o.body.success ==> o.body == Found(c.result.recordset.value[0]))
      && (Usable(c) && c.result.recordset.value == [] ==> o.body == ErrorBody("Phone number not found"))
      && (!Usable(c) ==> o.body == ErrorBody("Error retrieving phone details"))
  {
    var c := db(PhoneByIdQuery(phoneId));
    if !Usable(c) then Resolves(ErrorBody("Error retrieving phone details"))
    else if |c.result.recordset.value| > 0 then Resolves(Found(c.result.recordset.value[0]))
    else Resolves(ErrorBody("Phone number not found"))
  }
}
