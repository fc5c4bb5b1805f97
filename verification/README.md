# go-rest paginated list queries and nullable columns, in Dafny

This project models the core of the Go service library `go-rest`. It covers two parts.

The paginated list-query machinery in `rest/`:

- `ExtractSearchParamsFromUrl` turns the request's form values into `SearchParams`. Scopes and terms are comma lists. `pageIndex` defaults to 1. `itemsPerPage` defaults to 100 and is clamped to [20, 250].
- `SetTotalPages` writes the total item count and the ceiling page count back into the receiver's `PageInfo`. `EnsureSingleScope` is the single-scope check.
- `ProcessPageStmt` and its twin `ProcessSearchParams` assemble a parameterised SQL statement:
  - the one scope becomes a JOIN;
  - each search term becomes a two-placeholder LIKE filter, and its pattern is bound twice;
  - the sort key comes from a two-entry whitelist;
  - the page becomes `LIMIT offset, count`.
- `ProcessListQuery` runs the page query and `SELECT FOUND_ROWS()` in one transaction. Every failure rolls back, and only a fully successful run commits.
- The error values of `rest/error.go`: a message, an HTTP status fixed by the constructor, and an annotated cause.

The nullable column wrappers of `nullabledb/` (`NullInt64`, `NullBool`, `NullString`, `NullDate`):

- `Scan` of a database value, where nil means NULL.
- JSON marshalling with `null` standing for an invalid value.
- `Native`.
- `NullDate.Scan`'s date check. It takes the leftmost `dddd[.-]dd[.-]dd` in the text and refuses a year/month/day that `time.Date` would normalise into another date.

## How the model is built

**Go's integers.** Go's `int` is taken as 64 bits wide (`GoInt.Int64`). Wrap-around and truncating division are written out where the code can reach them: the LIMIT offset, and the page-count quotient and remainder.

**Form parsing and search parameters.** `strconv.Atoi`/`ParseInt(…, 10, 64)`, `ParseInt(…, 10, 32)`, `Itoa` and `strings.Split` are modelled in `StrConv` and `GoStrings`. `SearchParams` is a class: `SetTotalPages` replaces its `PageInfo` in place. `PageInfo` is a value.

**Query assembly.** Each assembler is a method with the loop over the terms. Its contract ties the result to a specification function (`PageStmt`, `SearchFragments`). The properties are proved about those functions:
- placeholder arity;
- injection safety: the SQL text depends on a term only through whether it parses as a number;
- error precedence;
- the LIMIT arithmetic.

**The transaction.** `ProcessListQuery` drives a `Store` object. Each call on the store answers as its `Faults` say and appends an `Event` to the store's trace. An independent state machine (`Step`/`Run`) states what call orders are allowed:
- queries only in a healthy transaction with no cursor open;
- cursors closed before the transaction ends;
- a commit only when nothing has failed.

Every trace `ProcessListQuery` can produce is proved to be allowed, and to end with a commit exactly when the run succeeds.

**Nullable wrappers.** The four wrappers share one generic class. The payload's JSON codec and the driver's conversions are left abstract, as parameters.

**Behaviours of the code worth knowing:**
- A term such as `555-1234` is not a base-10 integer, so it is searched in the name and email columns, not the phone columns.
- `pageIndex` is not range-checked, so 0 and negative indexes pass. See Findings.
- An empty sort value is refused with UnprocessableEntity like any other unknown sort; there is no "no ordering" case.

## Model

| member | source | states |
|---|---|---|
| GoInt.Wrap64 | rest/pages-db.go:44-58 | the value an `int` holds after overflow: unchanged in range, congruent modulo 2^64 otherwise |
| GoInt.Quo64 | rest/pages.go:75 | Go's truncating `/` on int64; the mathematical quotient for a non-negative dividend and positive divisor |
| GoInt.Rem64 | rest/pages.go:76 | Go's `%` on int64: the remainder takes the dividend's sign (non-positive for a ≤ 0, non-negative for a ≥ 0), is smaller than the divisor in magnitude, and is the Euclidean remainder for non-negative operands |
| StrConv.ParseInt64 | rest/pages.go:46 | `Atoi`/`ParseInt(s, 10, 64)`: accepts only an optional sign followed by digits, range-checked to 64 bits; the value is the digits' number, negated exactly after `-` |
| StrConv.DigitRunParses | rest/pages-db.go:32-34 | every digit run, leading zeros included, is accepted bare or after `+` exactly when its number is at most MaxInt64, with that number, and after `-` exactly when it is at most 2^63, with its negation |
| StrConv.MinInt64Edge | rest/pages.go:46 | the digits of 2^63 parse to MinInt64 after `-` and are out of range bare or after `+` |
| StrConv.ParseInt32 | nullabledb/nullabledb.go:259-266 | `ParseInt(s, 10, 32)`: accepts exactly what the 64-bit parse accepts within the 32-bit range, with the same value |
| StrConv.FormatInt | rest/pages-db.go:58 | `Itoa`: a leading `-` exactly for negative numbers, digits elsewhere |
| StrConv.ParseFormatRoundTrip | rest/pages-db.go:58 | parsing what `Itoa` printed gives back the number, for every int64 |
| StrConv.ShortDigitRunParses | nullabledb/nullabledb.go:259-267 | a run of 1 to 9 ASCII digits always parses to the number it spells |
| GoStrings.Split | rest/pages.go:30 | `strings.Split`: one piece more than there are separators, and no piece holds the separator |
| GoStrings.JoinSplit | rest/pages.go:28-39 | joining the split pieces restores the input: splitting loses and adds nothing |
| RestErrors.ErrorData.Error | rest/error.go:21-23 | `Error()` is the message verbatim |
| RestErrors.ErrorData.Code | rest/error.go:24-26 | `Code()` is the stored status |
| RestErrors.ErrorData.Cause | rest/error.go:27-29 | `Cause()` is the stored, annotated cause |
| RestErrors.AnnotateError | rest/error.go:31-39 | nil stays nil; a non-nil cause becomes a non-nil annotation wrapping it |
| RestErrors.BadRequestError | rest/error.go:42-44 | message kept, code 400, cause nil exactly when none was given |
| RestErrors.AuthorizationError | rest/error.go:45-47 | message kept, code 401, cause nil exactly when none was given |
| RestErrors.NotFoundError | rest/error.go:48-50 | message kept, code 404, cause nil exactly when none was given |
| RestErrors.UnprocessableEntityError | rest/error.go:51-53 | message kept, code 422, cause nil exactly when none was given |
| RestErrors.ServerError | rest/error.go:54-56 | message kept, code 500, cause nil exactly when none was given |
| Pages.FormList | rest/pages.go:28-39 | empty value gives the empty list; otherwise the pieces join back to the value, one more than the commas, none holding a comma |
| Pages.ParsePageIndex | rest/pages.go:42-51 | absent gives 1; otherwise accepted exactly when `Atoi` accepts it, with `Atoi`'s value and no range check; the error is a BadRequest naming the input with `Atoi`'s error as cause |
| Pages.ClampItemsPerPage | rest/pages.go:59-63 | the result lies in [20, 250]; in-range values are kept, low ones become 20, high ones 250 |
| Pages.ParseItemsPerPage | rest/pages-api.go:53-66 | absent gives 100; accepted exactly when `Atoi` accepts it, with `Atoi`'s value clamped to [20, 250]; the error is a BadRequest naming the input |
| Pages.PageInfoFromForm | rest/pages.go:42-67 | success exactly when both values parse, and then the PageInfo holds the parsed index, the parsed and clamped size, and zero totals; a pageIndex error wins, otherwise an itemsPerPage error is returned; every error is a BadRequest |
| Pages.PageIndexAcceptsEveryInt64 | rest/pages-api.go:42-51 | every int64 `Itoa` can print is accepted as the page index unchanged, zero and negatives included |
| Pages.ItemsPerPageClampsEveryInt64 | rest/pages.go:53-66 | every int64 `Itoa` can print is accepted as the page size and clamped |
| Pages.ParsePageIndexChecked | rest/pages-db.go:41-44 | corrected page-index parse: accepted exactly when the original accepts an index in [1, MaxPageIndex], and then with the same value; errors are BadRequests |
| Pages.PageInfoFromFormChecked | rest/pages.go:42-67 | corrected form parse: accepted exactly when the original parse succeeds with an index in [1, MaxPageIndex], and then it gives the original's result; errors on otherwise-accepted forms are BadRequests |
| Pages.SingleScopeCheck | rest/pages-db.go:15-19 | no error exactly when there is one scope; more than one and none give their two distinct BadRequests |
| Pages.PageCount | rest/pages.go:75-78 | the page count of a non-negative count is non-negative |
| Pages.PageCountNoOverflow | rest/pages.go:75-77 | adding the extra page for a positive remainder never overflows |
| Pages.PageCountIsCeiling | rest/response.go:41-44 | for count ≥ 0 the page count is ⌈count / itemsPerPage⌉: enough pages for every item, and not one more |
| Pages.SearchParams.EnsureSingleScope | rest/response.go:28-36 | nil exactly when there is one scope; otherwise a BadRequest without cause; reads only |
| Pages.SearchParams.SetTotalPages | rest/response.go:38-46 | keeps the page index and size, records the count, and sets the page count to `PageCount`; nothing but PageInfo changes (the copies at rest/pages.go:72-80 and rest/pages-api.go:72-80 are identical) |
| Pages.ExtractSearchParamsFromUrl | rest/pages.go:25-70 | no SearchParams exactly when there is an error, and that error is the form parse's; on success the lists are the comma lists, sort is verbatim, PageInfo is the form parse's (the copy at rest/pages-api.go:25-70 is identical) |
| QueryAssembly.ScopeJoin | rest/pages-db.go:21-28 | accepts exactly "Active" (the packages join) and "All" (no join); any other scope is a BadRequest naming it |
| QueryAssembly.TermArgs | rest/pages-db.go:30-39 | two parameters per term |
| QueryAssembly.OrderBy | rest/pages-db.go:47-56 | `name-asc` maps to `c.name ASC `, `name-desc` to `c.name DESC `; anything else, "" included, is an UnprocessableEntity naming the value |
| QueryAssembly.OrderAndLimit | rest/pages-db.go:44-58 | the tail exists exactly when the sort is whitelisted and is then `ORDER BY <key> LIMIT <offset>, <itemsPerPage>` with the whitelisted key and `Itoa` of the wrapping offset and the page size; otherwise the sort's error |
| QueryAssembly.SearchFragments | rest/pages.go:82-130 | scope-count errors come first, then the unknown-scope error, then the sort error; success exactly when there is one known scope and a whitelisted sort, and then the fragments are the scope's join, the term filters in term order, the ORDER BY/LIMIT tail and the term patterns, two per term; errors are 400 or 422, and 422 exactly when only the sort is bad |
| QueryAssembly.PageStmt | rest/pages-db.go:14-63 | success and error exactly as for the fragments, with the same error; on success the statement is queryBase + the scope's join + whereBase + the term filters + the ORDER BY/LIMIT tail, and the parameters are the caller's followed by two patterns per term |
| QueryAssembly.AppendTermFilters | rest/pages-db.go:30-39 | the loop appends each term's filter in order and its pattern twice after the caller's parameters |
| QueryAssembly.ProcessPageStmt | rest/pages-db.go:14-63 | returns exactly `PageStmt`'s statement and parameters, or its error with an empty statement and no parameters |
| QueryAssembly.ProcessSearchParams | rest/pages.go:82-130 | returns exactly `SearchFragments`' fragments and parameters, or its error with three empty strings and no parameters |
| QueryAssembly.TermArgsAt | rest/pages-db.go:31-37 | term k's `%term%` pattern is bound at positions 2k and 2k+1 |
| QueryAssembly.FilterPlaceholders | rest/pages-db.go:33-36 | the phone filter and the name filter each hold exactly two `?` |
| QueryAssembly.ActiveJoinHasNoPlaceholder | rest/pages-db.go:25 | the packages join holds no `?` |
| QueryAssembly.ScopeJoinHasNoPlaceholder | rest/pages-db.go:21-28 | no scope join holds a `?` |
| QueryAssembly.TermFilter | rest/pages-db.go:32-37 | a term gets the phone filter exactly when `ParseInt(term, 10, 64)` accepts it, the name/email filter otherwise; either holds exactly two `?` |
| QueryAssembly.TermFilters | rest/pages-db.go:30-39 | the WHERE fragment of all terms holds exactly two `?` per term |
| QueryAssembly.OrderAndLimitHasNoPlaceholder | rest/pages-db.go:44-58 | the ORDER BY/LIMIT tail holds no `?` |
| QueryAssembly.PlaceholderArity | rest/pages-db.go:30-60 | the statement holds exactly one `?` more than the caller's bases for every parameter appended |
| QueryAssembly.TermFiltersIgnoreText | rest/pages-db.go:30-39 | the WHERE fragment depends on the terms only through their number and numeric/non-numeric kind |
| QueryAssembly.SqlIgnoresTermText | rest/pages-db.go:30-60 | injection safety: two requests whose terms agree in kind get the same SQL text, or the same error |
| QueryAssembly.TermClassificationExamples | rest/pages-db.go:32-37 | `555-1234`, "" and `+` are searched as names and emails |
| QueryAssembly.NumeralsAreNumericTerms | rest/pages-db.go:32-34 | every int64 numeral is searched as a phone number |
| QueryAssembly.LeadingZeroPhoneIsNumeric | rest/pages-db.go:32-34 | `0301234567`, a phone number with a leading zero, is searched as a phone number |
| QueryAssembly.LimitOffset | rest/pages-db.go:44-58 | the offset `(PageIndex - 1) * ItemsPerPage` in 64-bit arithmetic, exactly the mathematical product whenever that fits (the wrap-around case is `HugePageIndexWrapsOffset`) |
| QueryAssembly.PageIndexZeroIsAccepted | rest/pages.go:42-51 | page index "0" passes the form parse unchanged |
| QueryAssembly.PageIndexZeroGivesNegativeOffset | rest/pages-db.go:44-58 | page index 0 produces `ORDER BY c.name ASC LIMIT -100, 100` |
| QueryAssembly.HugePageIndexWrapsOffset | rest/pages-db.go:44-58 | the largest accepted page index makes the offset wrap around |
| QueryAssembly.CheckedPageOffsetIsExact | rest/pages-db.go:41-58 | with the checked parse the offset is exactly (pageIndex − 1) · itemsPerPage and never negative |
| QueryAssembly.CheckedPageLimitClause | rest/pages-db.go:44-58 | with the checked parse the tail prints the exact product (pageIndex − 1) · itemsPerPage as the LIMIT offset |
| ListQuery.Store.BeginTx | rest/pages-db.go:74 | `BeginTx` answers as the store's faults say and is recorded |
| ListQuery.Store.PrepareQuery | rest/pages-db.go:80 | `Prepare(queryStmt)` answers as the faults say and is recorded with its statement |
| ListQuery.Store.ExecQuery | rest/pages-db.go:86 | `Query(params...)` answers as the faults say and is recorded with its parameters |
| ListQuery.Store.BuildResults | rest/pages-db.go:94 | the result builder's answer is the faults' and is recorded |
| ListQuery.Store.CloseResultRows | rest/pages-db.go:103 | `rows.Close()` is recorded |
| ListQuery.Store.QueryFoundRows | rest/pages-db.go:105 | `SELECT FOUND_ROWS()` answers as the faults say and is recorded |
| ListQuery.Store.NextCountRow | rest/pages-db.go:112 | `countRows.Next()` answers as the faults say and is recorded |
| ListQuery.Store.ScanCount | rest/pages-db.go:117 | `countRows.Scan` answers as the faults say and is recorded |
| ListQuery.Store.CloseCountRows | rest/pages-db.go:122 | `countRows.Close()` is recorded |
| ListQuery.Store.RollbackTxn | rest/pages-db.go:76 | `txn.Rollback()` is recorded |
| ListQuery.Store.CommitTxn | rest/pages-db.go:123 | `txn.Commit()` is recorded |
| ListQuery.ProcessListQuery | rest/pages-db.go:65-126 | the calls made are exactly `ListQueryTrace`; returns the built results and the count on success, and nil, 0 and `ListQueryOutcome`'s ServerError otherwise |
| ListQuery.ListQueryOutcome | rest/pages-db.go:74-125 | success exactly when begin, prepare, query, build and the count half all succeed, returning the built results and the scanned count; every error is a 500 with one of the three messages, the begin message exactly when BeginTx failed |
| ListQuery.CountOutcome | rest/pages-db.go:105-121 | the count half succeeds exactly when FOUND_ROWS, Next and Scan succeed, returning the scanned count; its errors are 500 "Could not retrieve customers." |
| ListQuery.BeginFailureRollsBackWithoutTransaction | rest/pages-db.go:74-78 | after a failed BeginTx the only calls are the begin and a Rollback issued while no transaction exists |
| ListQuery.FetchFoundRows | rest/pages-db.go:105-125 | the count half: the calls made are exactly `CountTrace`; returns the scanned count, or 0 and the ServerError |
| ListQuery.FinishedIsFinal | rest/pages-db.go:122-125 | no call may follow the end of the transaction |
| ListQuery.CommitExcludesFailure | rest/pages-db.go:74-125 | any allowed trace containing a commit has no failed call, and the commit is its last call and its only commit |
| ListQuery.EndingCall | rest/pages-db.go:74-125 | a trace that ends the transaction ends with the ending call: a commit exactly when it committed, else a rollback with no commit |
| ListQuery.CountTraceFollowsProtocol | rest/pages-db.go:105-125 | the FOUND_ROWS half is allowed from a healthy transaction, closes its cursor, and commits exactly when it succeeds |
| ListQuery.EarlyFailuresRollBack | rest/pages-db.go:74-90 | a failed begin, prepare or query is followed only by a rollback |
| ListQuery.BuildFailureRollsBack | rest/pages-db.go:94-99 | a failed build closes the rows and rolls back |
| ListQuery.PagePathClosesRows | rest/pages-db.go:86-103 | the successful page half leaves a healthy transaction with no cursor open |
| ListQuery.ListQueryTraceFollowsProtocol | rest/pages-db.go:74-125 | every run is allowed by the protocol, leaves both cursors closed and ends the transaction, committing exactly when the run succeeds |
| ListQuery.FailureRollsBack | rest/pages-db.go:74-121 | every error path ends with a rollback, never commits, and reports code 500 with one of the three messages after a failed call |
| ListQuery.SuccessCommitsOnce | rest/pages-db.go:122-125 | the success path commits once, as its last call, never rolls back, and returns the built results and scanned count |
| ListQuery.RowsClosedBeforeFoundRows | rest/pages-db.go:101-105 | `SELECT FOUND_ROWS()` is always issued right after the page cursor is closed |
| Dates.DaysIn | nullabledb/nullabledb.go:269-274 | months have 28 to 31 days; February has 29 exactly in Gregorian leap years |
| Dates.Normalize | nullabledb/nullabledb.go:269 | `time.Date`'s normalisation always yields a real date and leaves a real date unchanged |
| Dates.NormalizeMonth | nullabledb/nullabledb.go:269 | `time.Date`'s month carry always gives a month in 1..12 and leaves a real month alone |
| Dates.Settle | nullabledb/nullabledb.go:269 | `time.Date`'s day carry leaves a day that exists in its month alone |
| Dates.SettleIsCalendarDate | nullabledb/nullabledb.go:269 | whatever the day count, the carry lands on a real date |
| Dates.NormalizeFixesExactlyCalendarDates | nullabledb/nullabledb.go:268-274 | `time.Date` leaves year, month and day unchanged exactly when they name a real date |
| Dates.FindFrom | nullabledb/nullabledb.go:241 | the first match at or after a position, or none there |
| Dates.FindDate | nullabledb/nullabledb.go:252-256 | the leftmost `dddd[.-]dd[.-]dd` match, none exactly when the text holds no match |
| Dates.WindowParses | nullabledb/nullabledb.go:259-267 | the three `ParseInt(…, 10, 32)` calls on a match never fail |
| Dates.CheckDate | nullabledb/nullabledb.go:252-276 | the validator: on success the value is the leftmost date-shaped substring, as written; every error is one of the two messages, and text with no match gets "does not parse as a date" |
| Dates.CheckDateAcceptsExactlyRealDates | nullabledb/nullabledb.go:252-276 | no match is "does not parse"; a leftmost match naming a real date is accepted as written; any other is "non-existent date" |
| Dates.DateExamples | nullabledb/nullabledb.go:273 | `2000-10-32` is refused and normalises to 2000-11-01; 29 February exists in 2000 but not 1900 |
| Nullable.NullJsonIffInvalid | nullabledb/nullabledb.go:39-44 | with a faithful codec, the JSON is `null` exactly when the wrapper is invalid |
| Nullable.InvalidRoundTrip | nullabledb/nullabledb.go:39-56 | marshalling an invalid wrapper and unmarshalling the result gives an invalid wrapper with the zero payload |
| Nullable.ValidRoundTrip | nullabledb/nullabledb.go:39-56 | with a faithful codec, marshalling a valid wrapper and unmarshalling the result restores it |
| Nullable.ScanValidIffNotNull | nullabledb/nullabledb.go:25-37 | a successful Scan leaves the wrapper valid exactly when the value is not NULL; NULL gives the zero payload; a failed Scan changes nothing |
| Nullable.DecodeValidIffDecodes | nullabledb/nullabledb.go:46-56 | after UnmarshalJSON the wrapper is valid exactly when the input is not `null` and decodes; an error exactly when decoding fails; `null` zeroes the payload |
| Nullable.NullValue.Scan | nullabledb/nullabledb.go:25-161 | Scan of NullInt64 (lines 25-37), NullBool (65-78) and NullString (148-161): the new state and the error are `ScanValue` of the old state |
| Nullable.NullValue.MarshalJSON | nullabledb/nullabledb.go:39-287 | MarshalJSON of NullInt64 (lines 39-44), NullBool (80-85), NullString (163-168) and NullDate (282-287): `null` for an invalid wrapper, the codec's text otherwise |
| Nullable.NullValue.UnmarshalJSON | nullabledb/nullabledb.go:46-299 | UnmarshalJSON of NullInt64 (lines 46-56), NullBool (87-97), NullString (170-180) and NullDate (289-299): the new state and the error are `DecodeJson` of the old state |
| Nullable.NullValue.Native | nullabledb/nullabledb.go:58-303 | Native of NullInt64 (lines 58-60), NullBool (99-101), NullString (182-184) and NullDate (301-303): the `sql.Null*` value has the same payload and flag |
| Nullable.ScannedDatesAreReal | nullabledb/nullabledb.go:243-280 | a NullDate left valid by Scan holds the leftmost date-shaped substring of the text, and it names a real date |
| Nullable.ScanDate | nullabledb/nullabledb.go:243-280 | NullDate.Scan: the new state and the error are `ScanDateValue` of the old state |

## Left out

- HTTP and JSON I/O are not modelled: `r.FormValue` (the form is a value), `StandardResponse`, `HandleError` and its logging. `ExtractSearchParamsFromUrl` returns its error without the `HandleError` side effect.
- rest/json.go, rest/json-request.go and the server configuration are not part of this model. rest/json.go holds older copies of the same types plus HTTP plumbing.
- `annotateError`'s call-site text (`runtime.Caller`) is not modelled. A non-nil cause becomes an `Annotated(inner)` value. This keeps more than Go does: Go builds a new error from the cause's text alone, so `errors.Unwrap`, `Is` and `As` cannot reach the cause. Nothing in the model reads `inner`.
- The `terror` library behind rest/response.go is not part of this model. `EnsureSingleScope` returns a BadRequest with the same messages and no cause.
- The database itself is not modelled: `database/sql`, the MySQL driver, `FOUND_ROWS()` semantics, isolation and concurrent writers. The store answers each call as its `Faults` say. Errors from `Close` and `Commit` are ignored, as the code ignores them.
- The appengine context of `ProcessListQuery` is left out.
- After a failed `BeginTx` (rest/pages-db.go:74-77) the code calls `Rollback` on the nil `*sql.Tx` that `BeginTx` returned with its error. In Go that call dereferences nil and panics, so the ServerError of that path is never returned. The model records the call as a `Rollback` event in the no-transaction phase (`ListQuery.BeginFailureRollsBackWithoutTransaction`) and returns the ServerError; the panic is not modelled.
- ListQuery.ProcessListQuery: the count half is a separate method, `FetchFoundRows`, to keep each proof small. Together they make the calls of the one Go function in the same order.
- The result builder is a fault of the store: its results are opaque, and how it reads the rows is not modelled.
- `NullFloat64` (floating point) and `NullTime` (RFC 3339 parsing and formatting, MySQL's `NullTime`) are left out.
- The payload encoding of `encoding/json` and the `sql.Null*` driver conversions are abstract parameters: a `Codec` and a `DriverValue`.
- Nullable.NullValue.Scan: `NullDate` is `NullValue<string>`, so the generic `Scan` (no date check) can also be called on it; only `Nullable.ScanDate` models `NullDate.Scan`.
- Nullable.NullValue.UnmarshalJSON: the zero payload `null` resets to is the codec's `zero`, a parameter; that it is Go's zero value (0, false or "") for the wrapper's type is not enforced.
- Nullable.NullJsonIffInvalid and Nullable.ValidRoundTrip: these assume a codec that never writes `null` for a value and reads back what it writes, as `encoding/json` does for integers, booleans and strings. That is not proved about the real library.
- Dates.Normalize: `time.Date`'s normalisation is modelled as a month carry followed by one-month-at-a-time day carry, not as an absolute day count. The hour, minute and location arguments are zero or UTC in the code and are not modelled.
- Text is a sequence of characters (runes). Byte-level encoding of strings and of `[]byte` JSON is not modelled.
- Go's `int` is assumed to be 64 bits wide.
- Nil versus empty slices are not distinguished. The code returns nil parameters on error, modelled as the empty sequence.
- A nil `PageInfo` pointer, which would make the code panic, is not modelled. `PageInfo` is always present.
- Pages.SearchParams.SetTotalPages: requires a non-zero ItemsPerPage, since Go panics on division by zero there. `GoInt.Quo64` and `GoInt.Rem64` require the same.

## Findings

| source | as written | input that shows it | evidently intended | confidence | as-written member | corrected member |
|---|---|---|---|---|---|---|
| rest/pages.go:42-51 with rest/pages-db.go:41-58 | `pageIndex` is only parsed with `Atoi`, never range-checked. The LIMIT offset `(PageIndex - 1) * ItemsPerPage` is then computed in 64-bit `int`, yet the comment at rest/pages-db.go:42-43 says the values are "within constraints at the API level" | `pageIndex=0` gives `LIMIT -100, 100`; `pageIndex=9223372036854775807` makes the offset wrap around | a page index in [1, MaxInt64 / 250] is required, so the offset is exact and never negative | not executed | QueryAssembly.PageIndexZeroGivesNegativeOffset, QueryAssembly.PageIndexZeroIsAccepted, QueryAssembly.HugePageIndexWrapsOffset | Pages.ParsePageIndexChecked, Pages.PageInfoFromFormChecked, QueryAssembly.CheckedPageOffsetIsExact |
