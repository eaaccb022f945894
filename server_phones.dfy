/** The in-memory phone-number store of the `server` variant
    (server/src/controllers/phoneNumbersController.js): a dictionary from
    country name to generated phone records, seeded at module load,
    extended on demand for unknown countries, and searched by phone id. */
module ServerPhones {
  import opened Base
  import opened Strings
  import opened Records
  import opened Random

  /** The countries seeded at module load, in insertion order. */
  const SeedCountries: seq<string> :=
    ["Argentina", "Brazil", "Canada", "Germany", "UK", "USA",
     "France", "Spain", "Italy", "Japan", "China", "Australia"]

  /** Record `id` of a batch, made from three consecutive draws: the number,
      the status and the type. `now` is the instant behind `last_updated`. */
  function GeneratedPhone(country: string, id: int, rnd: Source, pos: nat, now: int): (r: Row)
    ensures r.PhoneRecord? && r.id == id && r.country == country && r.lastUpdated == now
    ensures r.status in TrafficLights && r.lineType in PhoneLineTypes
    ensures |r.phoneNumber| > 1 && r.phoneNumber[0] == '+'
  {
    PhoneRecord(id, "+" + NatToString(Draw(rnd, pos, 9000000000) + 1000000000), country,
                TrafficLights[Draw(rnd, pos + 1, 3)], PhoneLineTypes[Draw(rnd, pos + 2, 3)], now)
  }

  /** Every record of a country's list: ids 1, 2, … in order, the country
      itself, and a status and type from the fixed lists. */
  predicate WellFormedBatch(rows: seq<Row>, country: string)
  {
    forall j :: 0 <= j < |rows| ==>
      rows[j].PhoneRecord? && rows[j].id == j + 1 && rows[j].country == country
      && rows[j].status in TrafficLights && rows[j].lineType in PhoneLineTypes
  }

  /** The `for (let i = 1; i <= count; i++) push(…)` loop shared by seeding
      and on-demand generation; it consumes three draws per record. */
  method GeneratePhones(country: string, count: nat, rnd: Source, pos: nat, now: int)
    returns (rows: seq<Row>, next: nat)
    ensures |rows| == count && next == pos + 3 * count
    ensures forall j :: 0 <= j < count ==> rows[j] == GeneratedPhone(country, j + 1, rnd, pos + 3 * j, now)
    ensures WellFormedBatch(rows, country)
  {
    rows := [];
    next := pos;
    var i := 1;
    while i <= count
      invariant 1 <= i <= count + 1
      invariant |rows| == i - 1 && next == pos + 3 * (i - 1)
      invariant forall j :: 0 <= j < i - 1 ==> rows[j] == GeneratedPhone(country, j + 1, rnd, pos + 3 * j, now)
    {
      rows := rows + [GeneratedPhone(country, i, rnd, next, now)];
      next := next + 3;
      i := i + 1;
    }
  }

  /** `phone.id.toString() === phoneId`. */
  predicate IdMatches(row: Row, phoneId: string)
  {
    row.PhoneRecord? && row.id >= 0 && NatToString(row.id) == phoneId
  }

  /** `rows.find(…)`: the first record whose id prints as `phoneId`. */
  function FindById(rows: seq<Row>, phoneId: string): (r: Option<Row>)
    ensures r.Some? ==> r.value in rows && IdMatches(r.value, phoneId)
    ensures r.None? <==> forall x :: x in rows ==> !IdMatches(x, phoneId)
    ensures r.Some? ==> exists j :: 0 <= j < |rows| && rows[j] == r.value
                                    && forall i :: 0 <= i < j ==> !IdMatches(rows[i], phoneId)
  {
    if rows == [] then None
    else if IdMatches(rows[0], phoneId) then Some(rows[0])
    else
      var r := FindById(rows[1..], phoneId);
      assert r.Some? ==> exists j :: 0 <= j < |rows| - 1 && rows[1..][j] == r.value
                                     && forall i :: 0 <= i < j ==> !IdMatches(rows[1..][i], phoneId);
      assert r.Some? ==> exists j :: 1 <= j < |rows| && rows[j] == r.value
                                     && forall i :: 0 <= i < j ==> !IdMatches(rows[i], phoneId) by {
        if r.Some? {
          var j :| 0 <= j < |rows| - 1 && rows[1..][j] == r.value
                   && forall i :: 0 <= i < j ==> !IdMatches(rows[1..][i], phoneId);
          assert rows[j + 1] == r.value;
          forall i | 0 <= i < j + 1 ensures !IdMatches(rows[i], phoneId) {
            if i > 0 { assert rows[i] == rows[1..][i - 1]; }
          }
        }
      }
      r
  }

  /** A country listed in `keys` that holds a record matching `phoneId`. */
  predicate CountryHit(keys: seq<string>, records: map<string, seq<Row>>, phoneId: string, j: int)
    requires 0 <= j < |keys|
  {
    keys[j] in records && FindById(records[keys[j]], phoneId).Some?
  }

  /** The position in `keys` of the first country holding a match, or
      `|keys|` when there is none. */
  function FirstHit(keys: seq<string>, records: map<string, seq<Row>>, phoneId: string): (j: nat)
    ensures j <= |keys|
    ensures j < |keys| ==> CountryHit(keys, records, phoneId, j)
    ensures forall i :: 0 <= i < j ==> !CountryHit(keys, records, phoneId, i)
  {
    if keys == [] then 0
    else if CountryHit(keys, records, phoneId, 0) then 0
    else
      var j := FirstHit(keys[1..], records, phoneId);
      assert forall i :: 1 <= i < j + 1 ==> !CountryHit(keys, records, phoneId, i) by {
        forall i | 1 <= i < j + 1 ensures !CountryHit(keys, records, phoneId, i) {
          assert keys[i] == keys[1..][i - 1];
          assert !CountryHit(keys[1..], records, phoneId, i - 1);
        }
      }
      1 + j
  }

  /** The `for…in` search with `break`: countries in `keys` order, the first
      country holding a match decides. Keys without an entry are skipped. */
  function FindInCountries(keys: seq<string>, records: map<string, seq<Row>>, phoneId: string): (r: Option<Row>)
    ensures r.None? <==> forall k :: k in keys && k in records ==> FindById(records[k], phoneId).None?
    ensures r.Some? ==> exists k :: k in keys && k in records && r.value in records[k]
    ensures r.Some? ==> IdMatches(r.value, phoneId)
  {
    var j := FirstHit(keys, records, phoneId);
    if j < |keys| then FindById(records[keys[j]], phoneId)
    else
      assert forall k :: k in keys && k in records ==> FindById(records[k], phoneId).None? by {
        forall k | k in keys && k in records ensures FindById(records[k], phoneId).None? {
          var i :| 0 <= i < |keys| && keys[i] == k;
          assert !CountryHit(keys, records, phoneId, i);
        }
      }
      None
  }

  /** The `for…in` loop of `getPhoneDetails`: visit the countries in
      order and `break` at the first one holding a match. */
  method SearchCountries(keys: seq<string>, records: map<string, seq<Row>>, phoneId: string)
    returns (phoneDetails: Option<Row>)
    requires forall i :: 0 <= i < |keys| ==> keys[i] in records
    ensures phoneDetails == FindInCountries(keys, records, phoneId)
  {
    phoneDetails := None;
    var i := 0;
    while i < |keys|
      invariant 0 <= i <= |keys|
      invariant i <= FirstHit(keys, records, phoneId)
      invariant phoneDetails.None?
    {
      var found := FindById(records[keys[i]], phoneId);
      if found.Some? {
        assert CountryHit(keys, records, phoneId, i);
        phoneDetails := found;
        break;
      }
      assert !CountryHit(keys, records, phoneId, i);
      i := i + 1;
    }
    if phoneDetails.None? {
      assert FirstHit(keys, records, phoneId) == |keys|;
    }
  }

  /** When `keys` lists every country, the search finds a record exactly
      when some country holds one whose id prints as `phoneId`. */
  lemma FindInCountriesComplete(keys: seq<string>, records: map<string, seq<Row>>, phoneId: string)
    requires forall k :: k in records ==> k in keys
    ensures FindInCountries(keys, records, phoneId).Some? <==>
      exists k, x :: k in records && x in records[k] && IdMatches(x, phoneId)
  {
    if exists k, x :: k in records && x in records[k] && IdMatches(x, phoneId) {
      var k, x :| k in records && x in records[k] && IdMatches(x, phoneId);
      assert FindById(records[k], phoneId).Some?;
    }
  }

  /** A string that matched an id reads back as that id. */
  lemma MatchedIdParses(row: Row, phoneId: string)
    requires IdMatches(row, phoneId)
    ensures ParseInt(phoneId) == Some(row.id)
  {
    ParseIntOfNatToString(row.id);
  }

  /** The module-level `mockPhoneData` dictionary, together with the order in
      which its keys were inserted (the order `for…in` visits them) and the
      position reached in the stream of `Math.random()` draws. */
  class PhoneStore {
    var records: map<string, seq<Row>>
    var order: seq<string>
    const rnd: Source
    var cursor: nat

    /** Every key is listed once in `order`, and every list holds between 3
        and 10 well-formed records of its own country. */
    ghost predicate Valid()
      reads this
    {
      && (forall k :: k in records <==> k in order)
      && (forall j, k :: 0 <= j < k < |order| ==> order[j] != order[k])
      && (forall k :: k in records ==> 3 <= |records[k]| <= 10 && WellFormedBatch(records[k], k))
    }

    /** Module load: each seed country gets 5 to 10 records. */
    constructor (rnd: Source, now: int)
      ensures Valid() && this.rnd == rnd
      ensures order == SeedCountries
      ensures forall k :: k in records ==> 5 <= |records[k]|
    {
      this.rnd := rnd;
      records := map[];
      order := [];
      cursor := 0;
      new;
      var c := 0;
      while c < |SeedCountries|
        invariant 0 <= c <= |SeedCountries|
        invariant order == SeedCountries[..c]
        invariant forall k :: k in records <==> k in order
        invariant forall k :: k in records ==> 5 <= |records[k]| <= 10 && WellFormedBatch(records[k], k)
      {
        var country := SeedCountries[c];
        var count := Draw(rnd, cursor, 6) + 5;
        var rows, next := GeneratePhones(country, count, rnd, cursor + 1, now);
        records := records[country := rows];
        order := order + [country];
        cursor := next;
        c := c + 1;
      }
    }

    /** `getPhoneNumbersByCountry`. A known country gets its stored list and
        nothing changes; an unknown one gets 3 to 8 fresh records, which are
        stored under that key alone. The reply's count is the list's length. */
    method GetPhoneNumbersByCountry(countryName: string, now: int) returns (body: Body)
      requires Valid()
      modifies this`records, this`order, this`cursor
      ensures Valid()
      ensures body.success && body.count.Some? && body.data.Many?
      ensures body.count.value == |body.data.rows|
      ensures countryName in records && body.data.rows == records[countryName]
      ensures countryName in old(records) ==>
        records == old(records) && order == old(order) && cursor == old(cursor)
      ensures countryName !in old(records) ==>
        && records == old(records)[countryName := records[countryName]]
        && 3 <= |records[countryName]| <= 8
        && order == old(order) + [countryName]
    {
      var phoneNumbers := if countryName in records then records[countryName] else [];
      if |phoneNumbers| == 0 {
        var count := Draw(rnd, cursor, 6) + 3;
        var rows, next := GeneratePhones(countryName, count, rnd, cursor + 1, now);
        phoneNumbers := phoneNumbers + rows;
        cursor := next;
        if countryName !in records {
          order := order + [countryName];
        }
        records := records[countryName := phoneNumbers];
      }
      body := Listing(phoneNumbers, None);
    }

    /** `getPhoneDetails`: the first record, visiting countries in insertion
        order, whose id prints as `phoneId`; otherwise the not-found reply. */
    method GetPhoneDetails(phoneId: string) returns (body: Body)
      requires Valid()
      ensures body.success <==> FindInCountries(order, records, phoneId).Some?
      ensures body.success ==> body == Found(FindInCountries(order, records, phoneId).value)
      ensures !body.success ==> body == ErrorBody("Phone number not found")
    {
      var phoneDetails := SearchCountries(order, records, phoneId);
      if phoneDetails.Some? {
        body := Found(phoneDetails.value);
      } else {
        body := ErrorBody("Phone number not found");
      }
    }
  }
}
