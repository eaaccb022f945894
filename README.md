# Telephony dashboard core, modelled in Dafny

The repository is a telephony monitoring dashboard. A React client shows the
status of phone lines per country and their incident history. It talks to
one of several Express or plain Node servers, which read an Azure SQL
database or fall back to mock data. This project models the parts of that
system that decide what is shown:

- the query shim of the `server` variant and its mock data (`Database`);
- the in-memory phone store of the `server` variant (`ServerPhones`);
- the history, phone and telemetry controllers of the `fixed-server` variant
  (`FixedHistory`, `FixedPhones`, `FixedTelemetry`);
- the history, phone-history, phone-number and telemetry controllers of the
  `telephony-monitor` server (`TmHistory`, `TmPhoneHistory`,
  `TmPhoneNumbers`, `TmTelemetry`);
- the stand-alone deployment server (`ApiDeploy`);
- the two client API layers (`ClientApi`);
- the country page's phone filters (`CountryView`) and the status badge
  (`StatusIndicator`).

Shared modules:

- `Base`: optional values, JavaScript truthiness and the millisecond constants.
- `Strings`: ASCII lower-casing, `startsWith` and `includes`, number printing
  and `parseInt`, `split('/').pop()`, and the default string order.
- `Records`: holds three modules.
  - `Records`: the row, query, completion and reply shapes.
  - `Random`: `Math.random()` as a given stream of draws.
  - `TimeRanges`: the preset history windows.
- `SqlWhere`: enough SQL WHERE syntax to give a clause built by string
  appends its meaning, with AND binding tighter than OR.

How the outside world enters the model:

- A database is a function `db: Query -> Completion` from a query to
  "resolved with this result" or "threw".
- The clock is a parameter `now`, in milliseconds.
- A local calendar day is a parameter `midnight`.
- `new Date(text)` is a parameter `parseDate`.
- `Math.random()` is a stream `rnd` read at position `pos`.
- An Express handler's effect is a `Reply`: a status with a JSON body, or
  the error handed to `next`.
- A Node `res` object is the `ApiDeploy.ServerResponse` class, which records
  the calls made on it.
- Module-level mutable state is a class: the connection pool and failure
  flag (`Database.DbService`), the phone dictionary and its key order
  (`ServerPhones.PhoneStore`), and the React state of the country page
  (`CountryView.CountryViewState`).

## Model

| member | source | states |
|---|---|---|
| Strings.ParseIntOfNatToString | server/src/services/database.js:122 | `parseInt` of a printed natural number gives back that number |
| Strings.NatToStringInjective | server/src/controllers/phoneNumbersController.js:70 | two ids that print the same are equal, so `id.toString() === phoneId` picks out one id |
| Strings.AfterLastSlash | api-deploy/server.js:34 | `split('/').pop()` is the longest suffix free of `/`, preceded by a `/` when shorter than the URL |
| Strings.AfterLastSlashOfPiece | api-deploy/server.js:33-34 | a slash-terminated prefix followed by a slash-free piece yields exactly that piece |
| TimeRanges.PresetSpanMs | telephony-monitor/server/src/controllers/historyController.js:26-37 | `24h` and `48h` reach back 24 and 48 hours, and only they do; every other value reaches back five days |
| Database.HistoryStartMonotone | server/src/services/database.js:183 | a later history row never starts after an earlier one |
| Database.StatusHistoryRow | server/src/services/database.js:178-194 | row `i` has id `i + 1`, alternates yellow and red, takes country, type and provider cyclically from their lists, starts `i` half-days before `now`, is ongoing exactly every fourth row and otherwise ends `1 + i % 3` days after its start |
| Database.PhoneHistoryRow | server/src/services/database.js:212-229 | the same fields as the status row, plus the number cycling through the nine fixed numbers |
| Database.GenerateStatusHistoryData | server/src/services/database.js:171-195 | 67 rows, row `i` having exactly the fields above (id, colour, country, type, provider, start and end), newest start first |
| Database.GeneratePhoneHistoryData | server/src/services/database.js:200-230 | 60 rows, row `i` having exactly those fields and the `i`-th number of the cycle, newest start first |
| Database.StatusesNarrowings | server/src/services/database.js:84-134 | the two narrower texts tested first both contain `statuses`, so the later `statuses` test covers them |
| Database.GetMockData | server/src/services/database.js:75-166 | the first matching test decides: 3 phone rows of the requested country, one country parsed from `countryId`, ten numbered countries, the status history, the phone history, or no rows |
| Database.MockEmptyExactlyForUnknownTables | server/src/services/database.js:75-166 | the mock recordset is empty exactly when the text names none of `statuses`, `status_history` and `status_phone_history` |
| Database.DbService.constructor | server/src/services/database.js:3-4 | at module load there is no pool and the failure flag is off |
| Database.DbService.SetupDbConnection | server/src/services/database.js:22-34 | the flag records whether the attempt failed; a failed attempt keeps the previous pool |
| Database.DbService.ExecuteQuery | server/src/services/database.js:42-67 | the pool is used exactly when the flag is off and a pool exists; the live result is returned when it resolves, and the mock data in every other case, so it never throws |
| CountryView.Keep | client/src/views/CountryView.js:78-95 | `filter` keeps exactly the elements that pass, never more of them than there were |
| CountryView.KeepIsSubsequence | client/src/views/CountryView.js:78-95 | filtering neither reorders nor invents phones |
| CountryView.KeepCompose | client/src/views/CountryView.js:73-137 | two filters applied one after the other equal one filter by their conjunction |
| CountryView.FilterResultIsSelection | client/src/views/CountryView.js:70-140 | the shown phones are an order-preserving subsequence of the loaded ones, and a phone is shown exactly when it is loaded and passes every filter that is on |
| CountryView.NoFiltersShowAll | client/src/views/CountryView.js:70-140 | with all four filters off every loaded phone is shown, in order |
| CountryView.UnknownDateFilterIgnored | client/src/views/CountryView.js:134-136 | an unknown date value leaves the list as the other three filters made it |
| CountryView.SortStrings | client/src/views/CountryView.js:151 | the sorted list holds the same strings, in strictly ascending order |
| CountryView.DateFilterStep | client/src/views/CountryView.js:98-137 | each branch of the date `switch` keeps exactly the phones the date test accepts; unknown values keep all |
| CountryView.CountryViewState.constructor | client/src/views/CountryView.js:10-21 | no phones are loaded and every filter is off |
| CountryView.CountryViewState.ApplyFilters | client/src/views/CountryView.js:70-140 | with no phones loaded the shown list is untouched; otherwise it becomes the selection by the current filters |
| CountryView.CountryViewState.GetUniqueTypes | client/src/views/CountryView.js:143-152 | the result is strictly ascending and holds a string exactly when some loaded phone has it as a truthy type |
| CountryView.CountryViewState.ClearFilters | client/src/views/CountryView.js:155-160 | all four filters are off afterwards |
| ServerPhones.GeneratedPhone | server/src/controllers/phoneNumbersController.js:14-21 | a generated record has its id and country, a traffic-light status, a known line type and a `+` number |
| ServerPhones.GeneratePhones | server/src/controllers/phoneNumbersController.js:13-22 | `count` records with ids 1 to `count`, three draws each |
| ServerPhones.FindById | server/src/controllers/phoneNumbersController.js:70 | `find` returns the first record whose id prints as `phoneId`, and nothing exactly when none does |
| ServerPhones.FirstHit | server/src/controllers/phoneNumbersController.js:69-75 | the first position in key order of a country holding a match, no earlier country holding one |
| ServerPhones.FindInCountries | server/src/controllers/phoneNumbersController.js:69-75 | the search finds nothing exactly when no listed country holds a match; a found record belongs to a listed country and matches the id |
| ServerPhones.SearchCountries | server/src/controllers/phoneNumbersController.js:67-75 | the `for…in` loop with `break` returns the first match in key order |
| ServerPhones.FindInCountriesComplete | server/src/controllers/phoneNumbersController.js:69-81 | when every key is visited, a phone is found exactly when some country holds a record with that id |
| ServerPhones.MatchedIdParses | server/src/controllers/phoneNumbersController.js:70 | a matched `phoneId` parses back to the record's id |
| ServerPhones.PhoneStore.constructor | server/src/controllers/phoneNumbersController.js:5-23 | each of the twelve seed countries holds 5 to 10 well-formed records, with keys in seed order |
| ServerPhones.PhoneStore.GetPhoneNumbersByCountry | server/src/controllers/phoneNumbersController.js:26-60 | the reply is the stored list with its length; a known country changes nothing, an unknown one gains 3 to 8 fresh records stored under it alone and appended to the key order |
| ServerPhones.PhoneStore.GetPhoneDetails | server/src/controllers/phoneNumbersController.js:62-86 | success exactly when the search in key order finds a record, which is then the data; otherwise the not-found error |
| FixedHistory.HistoryWindow | fixed-server/src/controllers/historyController.js:12-32 | a custom range is the two parsed dates, and has no window if either does not parse; a preset ends at `now` and spans its preset length |
| FixedHistory.CustomWithoutDatesIsFiveDays | fixed-server/src/controllers/historyController.js:27-30 | `custom` without both dates, and any unknown value, give the last five days |
| FixedHistory.ComputeWindow | fixed-server/src/controllers/historyController.js:12-32 | the statements compute exactly the window above |
| FixedHistory.PhoneHistoryQuery | fixed-server/src/controllers/historyController.js:111-149 | the number condition and the `number` parameter are present exactly when the number is truthy |
| FixedHistory.IncidentSpan | fixed-server/src/controllers/historyController.js:190-198 | an incident starts on one of the last five days and is ongoing or ends 1 to 12 hours later |
| FixedHistory.MockHistoryRow | fixed-server/src/controllers/historyController.js:185-208 | one generated incident has its id, a yellow or red status, listed country, region and type, and valid times |
| FixedHistory.GenerateMockHistoryData | fixed-server/src/controllers/historyController.js:178-212 | `count` incidents, row `j` having id `j + 1` |
| FixedHistory.MockPhoneHistoryRow | fixed-server/src/controllers/historyController.js:221-246 | one phone incident carries the filter number when one is given, else a generated `+` number |
| FixedHistory.GenerateMockPhoneHistoryData | fixed-server/src/controllers/historyController.js:215-250 | `count` phone incidents, row `j` having id `j + 1` |
| FixedHistory.GetStatusHistory | fixed-server/src/controllers/historyController.js:5-76 | always 200 and success with a count equal to the rows; the query's rows when it works, else 50 mock incidents with the note; no query is sent when a custom date does not parse |
| FixedHistory.GetPhoneHistory | fixed-server/src/controllers/historyController.js:79-175 | as the status history; the query text carries ` AND number = @number` and the parameters carry `number` exactly when it is truthy; 30 mock rows carrying that number on failure |
| FixedPhones.MockPhoneBatch | fixed-server/src/controllers/phoneNumbersController.js:88-103 | `count` well-formed records of the requested country |
| FixedPhones.GenerateMockPhoneData | fixed-server/src/controllers/phoneNumbersController.js:88-103 | the loop builds that batch: ids 1 to `count`, the country, a traffic-light status and a known type |
| FixedPhones.GetPhoneNumbersByCountryAsWritten | fixed-server/src/controllers/phoneNumbersController.js:5-46 | a working query gives its rows with a count |
| FixedPhones.FallbackNeverReached | fixed-server/src/controllers/phoneNumbersController.js:31-45 | whenever the query fails, the handler as written rejects |
| FixedPhones.FallbackRejectsOnFailingDatabase | fixed-server/src/controllers/phoneNumbersController.js:35 | with a database that always fails, the handler as written rejects |
| FixedPhones.GetPhoneNumbersByCountry | fixed-server/src/controllers/phoneNumbersController.js:5-46 | the corrected handler always resolves with success and a count equal to the rows: the query's rows, or five mock lines of the requested country with the note |
| FixedPhones.CorrectedAgreesWhereWrittenResolves | fixed-server/src/controllers/phoneNumbersController.js:5-46 | the correction changes only the failing case |
| FixedPhones.GetPhoneDetails | fixed-server/src/controllers/phoneNumbersController.js:48-85 | never rejects; success exactly when rows exist, giving the first; not-found for no rows; a generic error when the query fails |
| FixedTelemetry.MockCountryRow | fixed-server/src/controllers/telemetryController.js:115-133 | a mock country has its table name and region, id `index + 1`, total 50 to 149, active between 80% of total and total, uptime 95 to 99 |
| FixedTelemetry.GenerateMockCountryData | fixed-server/src/controllers/telemetryController.js:99-134 | twelve mock countries in table order |
| FixedTelemetry.GetGlobalStatus | fixed-server/src/controllers/telemetryController.js:5-47 | always 200 and success with a count equal to the rows; the table's rows, or exactly the twelve generated mock countries with the note |
| FixedTelemetry.GetCountryStatus | fixed-server/src/controllers/telemetryController.js:50-96 | 200 with the first row exactly when rows exist, 404 with the id in the error exactly when none do, 500 exactly when the query fails; success exactly for 200 |
| TmHistory.WindowClause | telephony-monitor/server/src/controllers/historyController.js:19-41 | a custom range gives the overlap clause with both dates; anything else gives the preset clause with the ISO start `now` minus the preset span; the clause always begins with `WHERE ` |
| TmHistory.BuildWindowClause | telephony-monitor/server/src/controllers/historyController.js:12-41 | the statements build exactly that clause and those parameters |
| TmHistory.DefaultingAgrees | telephony-monitor/server/src/controllers/historyController.js:10 | destructuring defaults and `||` defaults reach back the same span, five days for a falsy value |
| TmHistory.StatusHistoryQuery | telephony-monitor/server/src/controllers/historyController.js:43-57 | the query reads `status_history`, ends with the country-then-newest ordering, and carries the clause's parameters |
| TmHistory.GetStatusHistory | telephony-monitor/server/src/controllers/historyController.js:6-75 | one query built from the request's window; 200 with its rows when it resolves with a recordset, else the error goes to `next` |
| SqlWhere.AppendAndAtom | telephony-monitor/server/src/controllers/phoneHistoryController.js:43-44 | appending ` AND x` to a clause's text conjoins `x` only with its last AND-group |
| SqlWhere.GroupAndAtom | telephony-monitor/server/src/controllers/phoneHistoryController.js:43-44 | `(c) AND x` holds exactly when `c` and `x` both hold |
| TmPhoneHistory.PresetChainRenders | telephony-monitor/server/src/controllers/phoneHistoryController.js:37 | the preset clause is three parenthesised conditions joined by OR |
| TmPhoneHistory.CustomChainRenders | telephony-monitor/server/src/controllers/phoneHistoryController.js:19 | the custom clause is three parenthesised conditions joined by OR |
| TmPhoneHistory.WindowChain | telephony-monitor/server/src/controllers/phoneHistoryController.js:17-39 | the window clause's text is `WHERE ` and a chain of three conditions joined by OR |
| TmPhoneHistory.WindowIsDisjunction | telephony-monitor/server/src/controllers/phoneHistoryController.js:17-39 | the window clause holds of a row exactly when one of its three conditions does |
| TmPhoneHistory.BuildPhoneClauseAsWritten | telephony-monitor/server/src/controllers/phoneHistoryController.js:10-46 | without a number the window clause is kept; with one, ` AND number LIKE @number` is appended and the number is wrapped in `%` |
| TmPhoneHistory.AsWrittenRenders | telephony-monitor/server/src/controllers/phoneHistoryController.js:42-46 | the appended text is the window's chain with the number filter appended, with no parentheses |
| TmPhoneHistory.AsWrittenMeaning | telephony-monitor/server/src/controllers/phoneHistoryController.js:42-46 | the clause as written filters by number only the third condition of the window |
| TmPhoneHistory.AsWrittenAdmitsOtherNumbers | telephony-monitor/server/src/controllers/phoneHistoryController.js:42-46 | for every window, a row of another number that satisfies the first condition is selected |
| TmPhoneHistory.BuildPhoneClause | telephony-monitor/server/src/controllers/phoneHistoryController.js:42-46 | the corrected clause puts the window in parentheses before ` AND number LIKE @number`; the parameters are unchanged |
| TmPhoneHistory.CorrectedRenders | telephony-monitor/server/src/controllers/phoneHistoryController.js:42-46 | the corrected text is the whole window chain grouped and then conjoined with the number filter |
| TmPhoneHistory.CorrectedMeaning | telephony-monitor/server/src/controllers/phoneHistoryController.js:42-46 | the corrected clause holds of a row exactly when the window holds and the number matches |
| TmPhoneHistory.PhoneHistoryQuery | telephony-monitor/server/src/controllers/phoneHistoryController.js:48-63 | the query reads `status_phone_history`, ends with the number-then-newest ordering, and carries the clause's parameters |
| TmPhoneHistory.GetPhoneHistory | telephony-monitor/server/src/controllers/phoneHistoryController.js:6-80 | without a number the query is the plain window query; with one it is the window in parentheses then ` AND number LIKE @number`, with `number` set to the value wrapped in `%`; 200 with its rows, or the error to `next` |
| TmPhoneNumbers.QueriesDistinct | telephony-monitor/server/src/controllers/phoneNumbersController.js:12-52 | the count, probe and listing queries differ from one another |
| TmPhoneNumbers.GetPhoneNumbersByCountry | telephony-monitor/server/src/controllers/phoneNumbersController.js:6-70 | the count comes first; the `%country%` probe is sent exactly when the count reads 0; an unreadable count or a throwing probe goes to `next`; a sent reply follows the listing query and is 404 with the country in the message exactly when it has no rows, and otherwise 200 with the rows |
| TmPhoneNumbers.LikeResultIrrelevant | telephony-monitor/server/src/controllers/phoneNumbersController.js:22-32 | the probe's rows never change the reply; only whether it throws does |
| TmTelemetry.CountOrZero | telephony-monitor/server/src/controllers/telemetryController.js:27 | the count is the recordset's length, or 0 when it is missing |
| TmTelemetry.GetGlobalTelemetry | telephony-monitor/server/src/controllers/telemetryController.js:6-33 | the error goes to `next` exactly when the query throws; otherwise 200 with the rows, or none, and a count equal to the rows sent |
| TmTelemetry.GetTelemetryByCountry | telephony-monitor/server/src/controllers/telemetryController.js:38-77 | `next` exactly when the query throws or has no recordset; 404 with the id in the message exactly when the recordset is empty; otherwise 200 with the first row; success exactly for 200 |
| StatusIndicator.GetStatusInfo | client/src/components/StatusIndicator.js:5-28 | each colour, in any letter case, gets its own class and label, and only it does; anything else is unknown, labelled by the status itself or `Unknown` when it is empty |
| StatusIndicator.ClassNameDependsOnLowerOnly | client/src/components/StatusIndicator.js:6 | two spellings that lower-case alike get the same class |
| ApiDeploy.GlobalRecords | api-deploy/server.js:23-28 | four fixed countries, each stamped with `now` |
| ApiDeploy.CountryRecord | api-deploy/server.js:36-49 | the record has the URL's id, its full name only for `US1` and `UK1`, a North America region exactly for ids starting with `US` and Europe otherwise, and green status |
| ApiDeploy.Route | api-deploy/server.js:14-87 | OPTIONS gives 204 with no body; otherwise the first matching route answers 200: the global list, the country record from the last path segment, the three history days, or the HTML index |
| ApiDeploy.CountryIdFromUrl | api-deploy/server.js:33-52 | a country URL gives back the record of the id it was built from |
| ApiDeploy.ServerResponse.constructor | api-deploy/server.js:5 | a fresh response has had no calls made on it |
| ApiDeploy.ServerResponse.SetHeaderCall | api-deploy/server.js:9 | `setHeader` records one header event |
| ApiDeploy.ServerResponse.WriteHeadCall | api-deploy/server.js:15 | `writeHead` records one status event |
| ApiDeploy.ServerResponse.EndCall | api-deploy/server.js:16 | `end` records one payload event |
| ApiDeploy.HandleRequest | api-deploy/server.js:5-88 | every request gets the three CORS headers first and then exactly one `writeHead` and one `end` with the routed answer |
| ClientApi.HistoryParams | client/src/services/api.js:72-91 | `timeRange` is always sent; both dates only for `custom` with two truthy dates; `number` only when truthy; nothing else |
| ClientApi.StatusHistoryParams | client/src/services/api.js:54-69 | the status-history call builds those parameters without `number` |
| ClientApi.PhoneHistoryParams | client/src/services/api.js:72-91 | the phone-history call builds exactly those parameters |
| ClientApi.ServerSeesClientWindow | client/src/services/api.js:54-91 | the server chooses the window the caller's arguments describe, and filters by number exactly when the caller gave a truthy one |
| ClientApi.HistoryCallServerWindow | client/src/services/api.js:54-91 | a history call, sent through its path and parameters, reaches the server with the window its arguments describe, and with a number exactly for a phone-history call with a truthy number |
| ClientApi.Settle | telephony-monitor/client/src/services/api.js:25-76 | a failed request rejects with its error; the monitor client returns `data`; the dashboard client returns the whole response exactly for the history and phone calls |
| ClientApi.ClientsAgreeOnData | client/src/services/api.js:25-105 | the two clients differ only in whether the payload is wrapped in the response |
| ClientApi.CountryCallReachesDeployRoute | client/src/services/api.js:38-48 | a country call against the deployment server, for an id of URL-unreserved characters that is not a dot segment, gets the record of the id it asked for |

## Left out

- Strings.Lower: lower-cases ASCII letters only, not the whole of Unicode `toLowerCase`.
- Strings.StrLess: compares code points rather than UTF-16 code units. The two orders can differ only for characters outside the Basic Multilingual Plane.
- CountryView.SortStrings: is applied only to the duplicate-free list that the type set yields, which is the only way the page uses `sort`.
- Floating point is not modelled. Random draws are integers below their bound. `active` is an integer between 80% of `total` and `total`. An uptime is an integer.
- `Math.random() < 0.7` is taken as a draw below 7 out of 10.
- The local calendar is the `midnight` parameter. `setDate(getDate() - k)` is taken as `k` days of 24 hours, so daylight-saving shifts are ignored.
- Every `new Date()` inside one request or one generator is taken as the same instant `now`.
- `toISOString` is an opaque `IsoText` value. Its range error for far dates is left out; only an unparsable custom date makes the `fixed-server` printing throw.
- Query text is kept with its whitespace normalised. Only the tests the shim makes on it (`includes`) and its parameters matter.
- `for…in` over the phone dictionary is modelled in insertion order. The ordering JavaScript gives integer-like keys, and inherited keys, are not modelled, since country names are neither.
- `closeDbConnection` (server/src/services/database.js:235-245) is not modelled; no core route calls it.
- The `fixed-server` and `telephony-monitor` database services are not part of this model. Their controllers take the database as the `db` parameter.
- Express routing, middleware, React rendering and effects scheduling, axios interceptors, base-URL selection and console logging are plumbing. They are left out.
- ClientApi.CallRequest: keeps the path text as the call builds it. `encodeURIComponent` in the phone path, and the URL layer's percent-encoding, are left out.
- ClientApi.CountryCallReachesDeployRoute: covers only ids of URL-unreserved characters (section 2.3 of RFC 3986) that are not `.` or `..`. Other ids reach the server percent-encoded, cut at `?` or `#`, or removed as dot segments, and the server echoes them changed.
- An explicit `null` passed as `timeRange` to a client history call is not modelled. The model's `None` is a missing argument, which defaults to `5d`.
- telephony-monitor/client/src/api.js is a second client stub; it is not part of this model.
- TmPhoneHistory.GetPhoneHistory: uses the corrected clause (see Findings). The handler as written is modelled by `TmPhoneHistory.BuildPhoneClauseAsWritten`.
- FixedPhones.GetPhoneNumbersByCountry: is the corrected handler (see Findings). The handler as written is `FixedPhones.GetPhoneNumbersByCountryAsWritten`, whose contract covers only the case where the query works.
- JSON serialisation of replies is left out. The model stops at the reply's fields.

## Findings

| source | as written | input that shows it | evidently intended | confidence | as-written member | corrected member |
|---|---|---|---|---|---|---|
| fixed-server/src/controllers/phoneNumbersController.js:35 | the `catch` block calls `generateMockPhoneData(countryName, 5)`, but `countryName` is a `const` of the `try` block and is out of scope there, so the fallback throws a ReferenceError and the promise rejects | any country with a database query that fails, e.g. `"Canada"` with a database that always throws | on a failed query, resolve with five mock lines of the requested country and the mock note | not executed | FixedPhones.GetPhoneNumbersByCountryAsWritten (shown by FixedPhones.FallbackRejectsOnFailingDatabase) | FixedPhones.GetPhoneNumbersByCountry |
| telephony-monitor/server/src/controllers/phoneHistoryController.js:42-46 | ` AND number LIKE @number` is appended to a clause of three conditions joined by OR. AND binds tighter than OR, so only the third condition is filtered by number | a `number` with any preset window: an incident of another number that started inside the window is returned | every returned incident matches the number: the window in parentheses, then the number filter | not executed | TmPhoneHistory.BuildPhoneClauseAsWritten (shown by TmPhoneHistory.AsWrittenAdmitsOtherNumbers) | TmPhoneHistory.BuildPhoneClause (proved by TmPhoneHistory.CorrectedMeaning) |
