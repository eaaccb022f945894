/** The phone-line filters of the country page (client/src/views/CountryView.js):
    the effect that narrows `phoneData` to `filteredPhoneData` by search term,
    line type, status and last-update date, the list of distinct line types
    offered in the type drop-down, and the reset of all four filters. */
module CountryView {
  import opened Base
  import opened Strings

  /** One phone line as the page receives it. A missing `type` is `None`;
      `last_updated` is an instant in milliseconds. */
  datatype Phone = Phone(phoneNumber: string, lineType: Option<string>, status: string, lastUpdated: int)

  /** The four filter values; `''` means the filter is off. */
  datatype Filters = Filters(searchTerm: string, typeFilter: string, statusFilter: string, dateFilter: string)

  const NoFilters: Filters := Filters("", "", "", "")

  /** `Array.prototype.filter`: the elements of `s` that pass `p`, in order. */
  function Keep(s: seq<Phone>, p: Phone -> bool): (r: seq<Phone>)
    ensures |r| <= |s|
    ensures forall x :: x in r <==> x in s && p(x)
  {
    if s == [] then [] else (if p(s[0]) then [s[0]] else []) + Keep(s[1..], p)
  }

  /** `a` is `b` with some elements left out and the rest in their order. */
  predicate IsSubsequence(a: seq<Phone>, b: seq<Phone>)
  {
    if a == [] then true
    else if b == [] then false
    else (a[0] == b[0] && IsSubsequence(a[1..], b[1..])) || IsSubsequence(a, b[1..])
  }

  lemma {:induction false} SubsequenceReflexive(s: seq<Phone>)
    ensures IsSubsequence(s, s)
  {
    if s != [] {
      SubsequenceReflexive(s[1..]);
    }
  }

  /** Filtering never reorders or invents elements. */
  lemma {:induction false} KeepIsSubsequence(s: seq<Phone>, p: Phone -> bool)
    ensures IsSubsequence(Keep(s, p), s)
  {
    if s != [] {
      KeepIsSubsequence(s[1..], p);
      var rest := Keep(s[1..], p);
      if p(s[0]) {
        assert Keep(s, p) == [s[0]] + rest;
        assert ([s[0]] + rest)[1..] == rest;
      } else {
        assert Keep(s, p) == rest;
        if rest != [] {
          assert IsSubsequence(rest, s[1..]);
        }
      }
    }
  }

  /** A filter that passes everything returns the list unchanged. */
  lemma {:induction false} KeepAll(s: seq<Phone>, p: Phone -> bool)
    requires forall x :: x in s ==> p(x)
    ensures Keep(s, p) == s
  {
    if s != [] {
      KeepAll(s[1..], p);
      assert [s[0]] + s[1..] == s;
    }
  }

  /** Two filters in a row are one filter by the conjunction. */
  lemma {:induction false} KeepCompose(s: seq<Phone>, p: Phone -> bool, q: Phone -> bool, r: Phone -> bool)
    requires forall x :: r(x) == (p(x) && q(x))
    ensures Keep(Keep(s, p), q) == Keep(s, r)
  {
    if s != [] {
      KeepCompose(s[1..], p, q, r);
      var rest := Keep(s[1..], p);
      if p(s[0]) {
        assert Keep(s, p) == [s[0]] + rest;
        assert ([s[0]] + rest)[1..] == rest;
      } else {
        assert Keep(s, p) == rest;
      }
    }
  }

  /** Filters that agree on every element give the same list. */
  lemma {:induction false} KeepExtensional(s: seq<Phone>, p: Phone -> bool, q: Phone -> bool)
    requires forall x :: p(x) == q(x)
    ensures Keep(s, p) == Keep(s, q)
  {
    if s != [] {
      KeepExtensional(s[1..], p, q);
    }
  }

  /** The search keeps a phone whose lower-cased number contains the
      lower-cased term. */
  predicate SearchHit(term: string, p: Phone)
  {
    Contains(Lower(p.phoneNumber), Lower(term))
  }

  /** The type filter compares case-insensitively and drops phones with no type. */
  predicate TypeHit(typeFilter: string, p: Phone)
  {
    Truthy(p.lineType) && Lower(p.lineType.value) == Lower(typeFilter)
  }

  /** The status filter is exact equality. */
  predicate StatusHit(statusFilter: string, p: Phone)
  {
    p.status == statusFilter
  }

  /** The date filter. `midnight(t)` is the local midnight that starts the
      day of instant `t` (`setHours(0, 0, 0, 0)`); a day is 86400000 ms.
      Unknown values keep every phone. */
  predicate DateHit(dateFilter: string, now: int, midnight: int -> int, p: Phone)
  {
    match dateFilter
    case "today" => midnight(p.lastUpdated) == midnight(now)
    case "yesterday" => midnight(p.lastUpdated) == midnight(now - MsPerDay)
    case "week" => p.lastUpdated >= now - 7 * MsPerDay
    case "month" => p.lastUpdated >= now - 30 * MsPerDay
    case _ => true
  }

  /** A phone is shown exactly when it passes every filter that is on. */
  predicate Selected(f: Filters, now: int, midnight: int -> int, p: Phone)
  {
    && (f.searchTerm == "" || SearchHit(f.searchTerm, p))
    && (f.typeFilter == "" || TypeHit(f.typeFilter, p))
    && (f.statusFilter == "" || StatusHit(f.statusFilter, p))
    && (f.dateFilter == "" || DateHit(f.dateFilter, now, midnight, p))
  }

  /** What the filter effect computes from a non-empty `phoneData`. */
  function FilterResult(phones: seq<Phone>, f: Filters, now: int, midnight: int -> int): seq<Phone>
  {
    Keep(phones, p => Selected(f, now, midnight, p))
  }

  /** The shown phones are an order-preserving subsequence of the loaded ones,
      and a phone is shown exactly when it is loaded and passes the filters. */
  lemma FilterResultIsSelection(phones: seq<Phone>, f: Filters, now: int, midnight: int -> int)
    ensures IsSubsequence(FilterResult(phones, f, now, midnight), phones)
    ensures forall p :: p in FilterResult(phones, f, now, midnight) <==> p in phones && Selected(f, now, midnight, p)
  {
    KeepIsSubsequence(phones, p => Selected(f, now, midnight, p));
  }

  /** With all four filters off every loaded phone is shown, in order. */
  lemma NoFiltersShowAll(phones: seq<Phone>, now: int, midnight: int -> int)
    ensures FilterResult(phones, NoFilters, now, midnight) == phones
  {
    KeepAll(phones, p => Selected(NoFilters, now, midnight, p));
  }

  /** A date filter value the switch does not know leaves the list as the
      other three filters made it. */
  lemma UnknownDateFilterIgnored(phones: seq<Phone>, f: Filters, now: int, midnight: int -> int)
    requires f.dateFilter !in {"today", "yesterday", "week", "month"}
    ensures FilterResult(phones, f, now, midnight) == FilterResult(phones, f.(dateFilter := ""), now, midnight)
  {
    var g := f.(dateFilter := "");
    forall p ensures Selected(f, now, midnight, p) == Selected(g, now, midnight, p) {
      assert DateHit(f.dateFilter, now, midnight, p);
    }
    KeepExtensional(phones, p => Selected(f, now, midnight, p), p => Selected(g, now, midnight, p));
  }

  /** `s` has no element twice. */
  predicate Distinct(s: seq<string>)
  {
    forall j, k :: 0 <= j < k < |s| ==> s[j] != s[k]
  }

  /** Each element is below the next in the default string order. */
  predicate Ascending(s: seq<string>)
  {
    forall j :: 0 <= j < |s| - 1 ==> StrLess(s[j], s[j + 1])
  }

  /** Consecutive order implies order between any two positions, hence no
      duplicates. */
  lemma {:induction false} AscendingPairwise(s: seq<string>)
    requires Ascending(s)
    ensures forall j, k :: 0 <= j < k < |s| ==> StrLess(s[j], s[k])
  {
    if |s| > 1 {
      AscendingPairwise(s[1..]);
      forall k | 1 < k < |s|
        ensures StrLess(s[0], s[k])
      {
        assert StrLess(s[1..][0], s[1..][k - 1]);
        StrLessTransitive(s[0], s[1], s[k]);
      }
    }
  }

  /** One step of sorting: put `x` into an ascending list that lacks it. */
  function InsertSorted(x: string, s: seq<string>): (r: seq<string>)
    requires Ascending(s) && x !in s
    ensures Ascending(r) && |r| == |s| + 1
    ensures forall t :: t in r <==> t == x || t in s
    ensures r[0] == x || (s != [] && r[0] == s[0])
  {
    if s == [] then [x]
    else if StrLess(x, s[0]) then [x] + s
    else
      StrLessTotal(x, s[0]);
      var rest := InsertSorted(x, s[1..]);
      assert StrLess(s[0], rest[0]) by {
        if rest[0] != x {
          assert rest[0] == s[1];
        }
      }
      [s[0]] + rest
  }

  /** `Array.prototype.sort()` with no comparator, applied to a list without
      duplicates: the same strings in ascending order. */
  function SortStrings(s: seq<string>): (r: seq<string>)
    requires Distinct(s)
    ensures Ascending(r) && |r| == |s|
    ensures forall t :: t in r <==> t in s
  {
    if s == [] then []
    else
      assert Distinct(s[1..]) by {
        forall j, k | 0 <= j < k < |s| - 1 ensures s[1..][j] != s[1..][k] {
          assert s[1..][j] == s[j + 1] && s[1..][k] == s[k + 1];
        }
      }
      assert s[0] !in s[1..];
      InsertSorted(s[0], SortStrings(s[1..]))
  }

  /** `phone.type` is truthy and equals `t`. */
  predicate HasType(p: Phone, t: string)
  {
    p.lineType == Some(t) && t != ""
  }

  /** The `switch (dateFilter)` of the effect: one narrowing per known
      value, and `default: break` for the rest. */
  method DateFilterStep(filtered: seq<Phone>, date: string, now: int, midnight: int -> int)
    returns (r: seq<Phone>)
    ensures r == Keep(filtered, p => DateHit(date, now, midnight, p))
  {
    match date
    case "today" =>
      r := Keep(filtered, (p: Phone) => midnight(p.lastUpdated) == midnight(now));
      KeepExtensional(filtered, (p: Phone) => midnight(p.lastUpdated) == midnight(now),
                      p => DateHit(date, now, midnight, p));
    case "yesterday" =>
      r := Keep(filtered, (p: Phone) => midnight(p.lastUpdated) == midnight(now - MsPerDay));
      KeepExtensional(filtered, (p: Phone) => midnight(p.lastUpdated) == midnight(now - MsPerDay),
                      p => DateHit(date, now, midnight, p));
    case "week" =>
      r := Keep(filtered, (p: Phone) => p.lastUpdated >= now - 7 * MsPerDay);
      KeepExtensional(filtered, (p: Phone) => p.lastUpdated >= now - 7 * MsPerDay,
                      p => DateHit(date, now, midnight, p));
    case "month" =>
      r := Keep(filtered, (p: Phone) => p.lastUpdated >= now - 30 * MsPerDay);
      KeepExtensional(filtered, (p: Phone) => p.lastUpdated >= now - 30 * MsPerDay,
                      p => DateHit(date, now, midnight, p));
    case _ =>
      r := filtered;
      KeepAll(filtered, p => DateHit(date, now, midnight, p));
  }

  /** The React state of the page that the filters read and write. */
  class CountryViewState {
    var phoneData: seq<Phone>
    var filteredPhoneData: seq<Phone>
    var searchTerm: string
    var typeFilter: string
    var statusFilter: string
    var dateFilter: string

    /** The initial `useState` values: no phones, every filter off. */
    constructor ()
      ensures phoneData == [] && filteredPhoneData == []
      ensures CurrentFilters() == NoFilters
    {
      phoneData := [];
      filteredPhoneData := [];
      searchTerm := "";
      typeFilter := "";
      statusFilter := "";
      dateFilter := "";
    }

    function CurrentFilters(): Filters
      reads this
    {
      Filters(searchTerm, typeFilter, statusFilter, dateFilter)
    }

    /** The filter effect. With no phones loaded it returns before touching
        `filteredPhoneData`; otherwise it narrows a copy of `phoneData` by
        each filter that is on, in the order search, type, status, date. */
    method ApplyFilters(now: int, midnight: int -> int)
      modifies this`filteredPhoneData
      ensures phoneData == [] ==> filteredPhoneData == old(filteredPhoneData)
      ensures phoneData != [] ==> filteredPhoneData == FilterResult(phoneData, CurrentFilters(), now, midnight)
    {
      if |phoneData| == 0 {
        return;
      }
      var search, lineType, status, date := searchTerm, typeFilter, statusFilter, dateFilter;
      var filtered := phoneData;
      ghost var sel: Phone -> bool := p => true;
      KeepAll(phoneData, sel);

      if search != "" {
        ghost var next: Phone -> bool := p => sel(p) && SearchHit(search, p);
        KeepCompose(phoneData, sel, p => SearchHit(search, p), next);
        filtered := Keep(filtered, p => SearchHit(search, p));
        sel := next;
      }

      if lineType != "" {
        ghost var next: Phone -> bool := p => sel(p) && TypeHit(lineType, p);
        KeepCompose(phoneData, sel, p => TypeHit(lineType, p), next);
        filtered := Keep(filtered, p => TypeHit(lineType, p));
        sel := next;
      }

      if status != "" {
        ghost var next: Phone -> bool := p => sel(p) && StatusHit(status, p);
        KeepCompose(phoneData, sel, p => StatusHit(status, p), next);
        filtered := Keep(filtered, p => StatusHit(status, p));
        sel := next;
      }

      if date != "" {
        ghost var next: Phone -> bool := p => sel(p) && DateHit(date, now, midnight, p);
        KeepCompose(phoneData, sel, p => DateHit(date, now, midnight, p), next);
        filtered := DateFilterStep(filtered, date, now, midnight);
        sel := next;
      }

      ghost var f := Filters(search, lineType, status, date);
      KeepExtensional(phoneData, sel, p => Selected(f, now, midnight, p));
      filteredPhoneData := filtered;
    }

    /** `getUniqueTypes`: the distinct truthy types of `phoneData`, sorted.
        The set is filled in the order the phones come, then sorted. */
    method GetUniqueTypes() returns (types: seq<string>)
      ensures forall j, k :: 0 <= j < k < |types| ==> StrLess(types[j], types[k])
      ensures forall t :: t in types <==> exists p :: p in phoneData && HasType(p, t)
      ensures phoneData == [] ==> types == []
    {
      if |phoneData| == 0 {
        return [];
      }
      var seen: seq<string> := [];
      var i := 0;
      while i < |phoneData|
        invariant 0 <= i <= |phoneData|
        invariant Distinct(seen)
        invariant forall t :: t in seen <==> exists p :: p in phoneData[..i] && HasType(p, t)
      {
        var phone := phoneData[i];
        assert phoneData[..i + 1] == phoneData[..i] + [phone];
        if phone.lineType.Some? && phone.lineType.value != "" && phone.lineType.value !in seen {
          seen := seen + [phone.lineType.value];
        }
        assert forall t :: (exists p :: p in phoneData[..i + 1] && HasType(p, t)) <==>
          (exists p :: p in phoneData[..i] && HasType(p, t)) || HasType(phone, t);
        i := i + 1;
      }
      assert phoneData[..i] == phoneData;
      types := SortStrings(seen);
      AscendingPairwise(types);
    }

    /** `clearFilters`: every filter back to `''`; the phone lists are
        untouched until the effect runs again. */
    method ClearFilters()
      modifies this`searchTerm, this`typeFilter, this`statusFilter, this`dateFilter
      ensures CurrentFilters() == NoFilters
    {
      searchTerm := "";
      typeFilter := "";
      statusFilter := "";
      dateFilter := "";
    }
  }
}
