# Hostel fee report backend — a Dafny model

This project models the logic of the hostel fee report backend
(`backend/server.js`). The backend reads a monthly Google Sheet of
room-by-room fee payments and answers a few JSON routes:

- `/sheets` lists the spreadsheet's tabs.
- `/summary` gives the month's totals.
- `/roomwise` and `/yearwise` give per-room and per-year buckets.
- `/debug/sample` gives a sample of the month's records.

The model covers four parts of that logic.

- **The sheet-name calendar** (`SheetCalendar`).
  - `VALID_SHEETS` is built by the same nested loop the server runs at start-up.
  - `getCurrentMonthSheet` takes the clock's month index and year as parameters.
  - `resolveSheetName` handles the optional `sheet` query parameter.
- **Row normalisation** (`RowNormalizer`). This is the body of `getSheetData`:
  - the fetch result, or its failure;
  - the "fewer than two rows" error;
  - the trimmed and upper-cased headers;
  - `getVal`'s first-matching-key lookup;
  - the `parseFloat(...) || 0.0` coercion of the amount;
  - the upper-cased paid status;
  - the room filter, as a loop that pushes records.
- **Aggregation** (`Aggregation`).
  - The `/summary` totals.
  - The two-loop bucket computation of `/roomwise` and `/yearwise`, as methods over a `map` that they update.
  - The paid-status histogram of `/debug/sample`.
- **The `/sheets` listing** (`SheetListing`) and the routes that compose these parts (`ReportService`).

JavaScript's string operations live in `JsText`:

- `trim`, with the exact ECMAScript whitespace set;
- `toUpperCase`, for ASCII letters;
- `${n}` formatting of integers.

The Google Sheets client is a value (`DataSource.SheetsApi`). It holds the answer of a `values.get` call for each range, and the answer of `spreadsheets.get`. Either answer may be a failure.

`ReportExample` works through one small sheet by hand.

The proved properties include:

- `VALID_SHEETS` has 36 distinct entries in calendar order.
- A non-blank sheet parameter resolves exactly when its trimmed, upper-cased form is in that list, whatever its case and surrounding whitespace. A blank one falls back to the current month, unchecked.
- Cleaning keeps exactly the data rows with a room, in their order.
- `getVal` answers from the first key with a truthy cell.
- A text without digits is an amount of 0.
- The summary counts partition the records, and the pending amount is clamped at 0.
- Each room or year bucket describes exactly its group of records.
- The room buckets' counts, paid amounts and expected amounts add up to the summary's; their pending amounts add up to at least the summary's pending amount. The year buckets add up to the records that have a year.
- The histogram counts add up to the number of records.
- The `/sheets` filter keeps the valid tabs in order.

## Model

| member | source | states |
|---|---|---|
| SheetCalendar.ValidSheets | backend/server.js:44-49 | `VALID_SHEETS` as a value; `ValidSheetsShape`, `ValidSheetsDistinct` and `ValidSheetAt` state its length, order, entries and membership |
| SheetCalendar.BuildValidSheets | backend/server.js:44-49 | the nested year/month loop that pushes `"<MONTH> <YEAR>"` produces exactly `ValidSheets()` |
| SheetCalendar.YearSheetsPrefix | backend/server.js:46-47 | one turn of the month loop appends that month's sheet name for the year |
| SheetCalendar.CalendarLength | backend/server.js:44-49 | the calendar from `first` to `last` has 12 entries per year |
| SheetCalendar.CalendarIndex | backend/server.js:44-49 | entry `12 * (year - first) + month` is that month's sheet of that year |
| SheetCalendar.CalendarMembers | backend/server.js:44-49 | a string is in the calendar exactly when it is some month's sheet of some year in range |
| SheetCalendar.ValidSheetsShape | backend/server.js:38-49 | `VALID_SHEETS` has 36 entries, runs from "JANUARY 2023" to "DECEMBER 2025", has `MONTH_NAMES[m] + " " + y` at index `12*(y-2023)+m`, and holds exactly those names |
| SheetCalendar.ValidSheetAt | backend/server.js:44-49 | entry `i` of `VALID_SHEETS` is the sheet of month `i % 12` of year `2023 + i / 12` |
| SheetCalendar.ValidSheetsDistinct | backend/server.js:44-49 | the 36 entries are pairwise distinct |
| SheetCalendar.MonthNamesShape | backend/server.js:38-41 | every month name is a non-empty upper-case word without spaces, starting with a letter |
| SheetCalendar.MonthNamesDistinct | backend/server.js:38-41 | no two months share a name |
| SheetCalendar.SplitAtSpace | backend/server.js:47 | `a + " " + b` determines `a` and `b` when `a` has no space |
| SheetCalendar.IntToStringInjective | backend/server.js:47 | different years render to different texts in the template literal |
| SheetCalendar.SheetNameInjective | backend/server.js:47 | different (month, year) pairs give different sheet names |
| SheetCalendar.SheetNameCanonical | backend/server.js:108-113 | a sheet name is upper case and has no whitespace at either end |
| SheetCalendar.SheetName | backend/server.js:47 | the template literal `${month} ${year}` (also at line 112); `SheetNameInjective` and `SheetNameCanonical` state that it is injective, upper case and trimmed |
| SheetCalendar.CurrentMonthSheet | backend/server.js:108-113 | `getCurrentMonthSheet` for the clock's month and year; `SheetNameCanonical`, `SheetNameInjective` and `CurrentMonthInRange` state its properties |
| SheetCalendar.CurrentMonthInRange | backend/server.js:108-113 | the current month's sheet is in `VALID_SHEETS` exactly when the clock's year is 2023, 2024 or 2025 |
| SheetCalendar.ResolveSheetName | backend/server.js:116-130 | blank input (missing, empty or all whitespace) gives the current month's sheet, unchecked; otherwise it succeeds exactly when `trim(input).toUpperCase()` is in `VALID_SHEETS`, returns that name, and fails with the original input otherwise |
| SheetCalendar.ValidSheetCanonical | backend/server.js:44-49 | every valid sheet name is non-empty, upper case and trimmed |
| SheetCalendar.ResolveAnySpelling | backend/server.js:116-130 | any spelling of a valid name, in any letter case and with any surrounding whitespace, resolves to that canonical name |
| SheetCalendar.CurrentMonthNotResubmittable | backend/server.js:116-129 | after December 2025 the default sheet is still returned, but submitting that same name explicitly fails |
| JsText.TrimStart | backend/server.js:117 | the result is no longer than the input and does not start with whitespace |
| JsText.TrimStartSuffix | backend/server.js:117 | what `TrimStart` removes is a whitespace prefix and the result is the rest |
| JsText.TrimEnd | backend/server.js:117 | the result is a prefix of the input, what it drops is whitespace, and it does not end with whitespace |
| JsText.Trim | backend/server.js:117 | `trim` leaves no whitespace at either end |
| JsText.TrimSlice | backend/server.js:117 | `trim` returns a contiguous slice of its input and removes only whitespace |
| JsText.TrimStartPadded | backend/server.js:117 | whitespace before a string that starts with a non-space is removed exactly |
| JsText.TrimEndPadded | backend/server.js:117 | whitespace after a string that ends with a non-space is removed exactly |
| JsText.TrimPadded | backend/server.js:117 | `trim` of a trimmed string wrapped in whitespace gives that string back |
| JsText.TrimIdempotent | backend/server.js:117 | trimming twice is trimming once |
| JsText.ToUpper | backend/server.js:117 | `toUpperCase` letter by letter (also used at lines 150 and 177); `ToUpperIdempotent` and `TrimmedOfUpper` state its properties |
| JsText.ToUpperIdempotent | backend/server.js:117 | `toUpperCase` yields an upper-case string, is idempotent, and leaves upper-case strings alone |
| JsText.TrimmedOfUpper | backend/server.js:117 | upper-casing does not change which ends are whitespace |
| JsText.CanonicalUnchanged | backend/server.js:117 | an upper-case, trimmed string is unchanged by `trim().toUpperCase()` |
| JsText.NatToString | backend/server.js:47 | the decimal rendering is a non-empty digit string whose value is the number |
| JsText.IntToString | backend/server.js:47 | `${year}`: the decimal text, with a leading '-' when negative; `IntToStringInjective` and `FourDigitYear` state its properties |
| JsText.NatToStringInjective | backend/server.js:47 | different numbers render differently |
| JsText.FourDigitYear | backend/server.js:47 | a year from 1000 to 9999 renders as four digits |
| Seqs.Filter | backend/server.js:182-184 | filtering keeps only elements satisfying the predicate and never lengthens |
| Seqs.KeptIndices | backend/server.js:182-184 | the filter's output is the input at strictly increasing positions, and a position is kept exactly when its element satisfies the predicate |
| Seqs.FilterSnoc | backend/server.js:182-184 | filtering one more element appends it exactly when it satisfies the predicate |
| Seqs.FilterKeepsAll | backend/server.js:235-240 | a filter that every element passes keeps everything |
| RowNormalizer.NormalizeHeaders | backend/server.js:150 | every header trimmed, then upper-cased; `CanonicalHeaders` states that canonical headers are kept as they are |
| RowNormalizer.CanonicalHeaders | backend/server.js:150 | a header row that is already trimmed and upper case is left as it is |
| RowNormalizer.IndexOf | backend/server.js:156 | `indexOf` gives -1 exactly when the key is absent, and otherwise its first position |
| RowNormalizer.GetVal | backend/server.js:154-162 | the lookup loop over the keys; `GetValFirstMatch` and `GetValDefault` state its result |
| RowNormalizer.GetValDefault | backend/server.js:154-162 | when no key has a truthy cell, `getVal` returns the default |
| RowNormalizer.GetValFirstMatch | backend/server.js:154-162 | `getVal` returns the trimmed cell of the first key whose header exists and whose cell is non-empty |
| RowNormalizer.FieldVal | backend/server.js:154-162 | with a single key, `getVal` is the trimmed cell when truthy and the default otherwise |
| RowNormalizer.DigitRun | backend/server.js:170 | the digit run starting at `i` ends within the string |
| RowNormalizer.DigitRunShape | backend/server.js:170 | the run is all digits and cannot be extended |
| RowNormalizer.DigitRunToEnd | backend/server.js:170 | a run over a suffix of digits reaches the end |
| RowNormalizer.ScanDigits | backend/server.js:170 | a non-empty digit string scans as a whole number with no fraction or exponent |
| RowNormalizer.ParseFloat | backend/server.js:170 | `parseFloat`: skip leading whitespace, read the longest numeric prefix, NaN (`None`) without digits; `ScanDigits` and `AmountOfNatural` state what a digit string gives |
| RowNormalizer.ParseAmount | backend/server.js:167-173 | `parseFloat(amountStr)`, or 0 when that is NaN (or zero); `AmountWithoutDigits` and `AmountOfNatural` state its results |
| RowNormalizer.AmountWithoutDigits | backend/server.js:167-173 | a text with no decimal digit (such as "N/A" or "") is an amount of 0, and no error is raised |
| RowNormalizer.AmountOfNatural | backend/server.js:167-173 | the decimal text of a whole number parses to that number |
| RowNormalizer.NormalizeRow | backend/server.js:167-180 | one record built from a row; `NormalizeRowFields` states each field |
| RowNormalizer.NormalizeRowFields | backend/server.js:167-180 | room, year and paid are the trimmed truthy cells under their headers or "", paid is upper-cased, the amount is the parse of the AMOUNT cell or of "0" |
| RowNormalizer.Normalize | backend/server.js:146-151 | it fails with "no data" exactly when fewer than two rows were fetched; otherwise it yields at most one record per data row, each with a room |
| RowNormalizer.CleanKeepsRoomRows | backend/server.js:165-185 | the cleaned records are the normalised data rows at increasing positions, and a row is kept exactly when its room is non-empty |
| RowNormalizer.NormalizeStep | backend/server.js:166-184 | one turn of the row loop appends the row's record exactly when its room is non-empty |
| RowNormalizer.SheetData | backend/server.js:133-148 | the fetch of range `A1:M` of the sheet, its failures, no rows when `values` is missing, then `Normalize`; `GetSheetData` computes it |
| RowNormalizer.CleanRows | backend/server.js:165-185 | the push loop computes the room filter of the normalised data rows |
| RowNormalizer.GetSheetData | backend/server.js:133-192 | `getSheetData` fails without a client, on a failed fetch, or on fewer than two rows; otherwise it returns the cleaned rows after the header |
| Aggregation.IsPaid | backend/server.js:267 | a record is paid when its status is exactly "PAID" (also the test at lines 300 and 348); `PaidPartition` states that it splits the data with `IsUnpaid` |
| Aggregation.Sum | backend/server.js:270-271 | `reduce((sum, d) => sum + d.AMOUNT, 0)`; `SumSnoc` states how it grows and `PaidPartition` how it splits |
| Aggregation.SumSnoc | backend/server.js:270-271 | the `reduce` sum of one more record adds its amount |
| Aggregation.Max | backend/server.js:272 | `Math.max` is an upper bound of both arguments and equals one of them |
| Aggregation.PaidPartition | backend/server.js:266-272 | paid and unpaid records partition the data, in count and in amount |
| Aggregation.Summarize | backend/server.js:266-272 | `paid_count + unpaid_count == total_students == data.length`; `paid_count` is the number of records whose status is exactly "PAID" and the unpaid count the number of the others; `total_paid_amount` is the sum of the amounts of the "PAID" records; `expected_total` is the sum of all amounts, which is the paid total plus the unpaid amounts; `pending_amount` is `max(unpaid amounts, 0) >= 0` |
| Aggregation.Eligible | backend/server.js:296-298 | the records a report looks at: the filter of the records with a counted key, whose meaning `EligibleSnoc` and `EligibleAll` state |
| Aggregation.Group | backend/server.js:296-319 | the records carrying one key, in data order: a filter, whose meaning `GroupSnoc`, `GroupMembers`, `GroupOfKey` and `GroupOfAbsentKey` state |
| Aggregation.KeyOrder | backend/server.js:303-311 | the keys in the order the loop first creates their buckets; `KeyOrderDistinct` and `KeyOrderMembers` state that they are distinct and exactly the counted keys |
| Aggregation.GroupSnoc | backend/server.js:303-319 | one more record joins the group of its own key and leaves every other group alone |
| Aggregation.KeyOrderSnoc | backend/server.js:303-311 | a record with a new counted key appends that key to the key order; any other record leaves it alone |
| Aggregation.EligibleSnoc | backend/server.js:296-298 | a record joins the eligible records exactly when its key is counted |
| Aggregation.RunningSnoc | backend/server.js:313-319 | the running bucket of a group with one more record is one accumulation step further |
| Aggregation.GroupMembers | backend/server.js:296-320 | a group holds exactly the records carrying its key |
| Aggregation.KeyOrderDistinct | backend/server.js:303-311 | report keys are distinct and never empty for the room and year reports |
| Aggregation.KeyOrderMembers | backend/server.js:295-320 | the report keys are exactly the keys of the counted records |
| Aggregation.GroupOfKey | backend/server.js:303-319 | every report key has at least one record |
| Aggregation.GroupOfAbsentKey | backend/server.js:303-311 | a key not met yet has no records, so its bucket starts from zero |
| Aggregation.Add | backend/server.js:313-319 | one accumulation step: the amount goes to the expected total, then to the paid count and paid amount or to the unpaid count; `RunningMeaning` states what repeated steps compute |
| Aggregation.Running | backend/server.js:303-319 | the bucket of a group after the first loop, starting from the empty bucket; `RunningMeaning` states its columns |
| Aggregation.Finish | backend/server.js:322-325 | the pending amount becomes non-negative and at least `expected - paid`, equal to one of them, and no other column changes |
| Aggregation.RunningMeaning | backend/server.js:313-319 | the accumulated bucket holds the paid count, the unpaid count, the paid amount and the total amount of its group |
| Aggregation.BucketMeaning | backend/server.js:295-325 | a finished bucket's counts partition its group, its expected amount is the group's total, and its pending amount is `max(unpaid amounts, 0) >= 0` |
| Aggregation.GroupBuckets | backend/server.js:295-325 | the report's keys are exactly the keys met |
| Aggregation.BucketsDescribeGroups | backend/server.js:295-325 | every bucket describes a non-empty group: counts sum to its size, expected and paid amounts are its sums, pending is clamped |
| Aggregation.SkipStep | backend/server.js:297-298 | a record with an empty key leaves the running buckets unchanged |
| Aggregation.AddedBucket | backend/server.js:303-319 | the key's bucket, created empty on the key's first record, plus the record is the running bucket of the key's grown group |
| Aggregation.AddStep | backend/server.js:300-319 | a record with a key updates that key's bucket, created empty on first sight, and keeps the running-bucket invariant |
| Aggregation.Accumulate | backend/server.js:295-320 | the first loop ends with one running bucket per key met, holding that key's group |
| Aggregation.SetPending | backend/server.js:322-325 | the second loop sets every bucket's pending amount to `max(expected - paid, 0)` and changes nothing else |
| Aggregation.GroupWise | backend/server.js:295-325 | both loops together compute exactly `GroupBuckets` |
| Aggregation.RoomWise | backend/server.js:295-325 | the room summary is the buckets keyed by room |
| Aggregation.YearWise | backend/server.js:343-373 | the year summary is the buckets keyed by year, where `collected_amount` plays the part of `paid_amount` |
| Aggregation.PlusAdd | backend/server.js:313-319 | adding buckets commutes with accumulating a record |
| Aggregation.TotalsSkip | backend/server.js:296-320 | a record whose key is outside a key list changes none of those groups' totals |
| Aggregation.TotalsHit | backend/server.js:296-320 | a record whose key occurs once in a key list is added to their total once |
| Aggregation.NewKeyCover | backend/server.js:303-319 | a record with a new key opens its own bucket, and the bucket totals still equal the eligible records' bucket |
| Aggregation.OldKeyCover | backend/server.js:296-319 | a record with a known key, or with no counted key, keeps the bucket totals equal to the eligible records' bucket |
| Aggregation.GroupsCoverEligible | backend/server.js:295-320 | the groups together hold every eligible record exactly once |
| Aggregation.ColumnTotalsOfBuckets | backend/server.js:322-325 | the totals of the finished buckets equal the running totals in every column but pending, whose total is at least `expected - paid` and at least 0 |
| Aggregation.BucketsReconcile | backend/server.js:295-325 | across all buckets, counts and amounts add up to those of the eligible records, and pending amounts cover their clamped unpaid balance |
| Aggregation.EligibleAll | backend/server.js:296-298 | when every record has the key, the report looks at every record |
| Aggregation.EligibleCounts | backend/server.js:343-346 | skipping records adds no paid and no unpaid records |
| Aggregation.RoomWiseMatchesSummary | backend/server.js:266-325 | on cleaned data, the room buckets' paid and unpaid counts, paid amounts and expected amounts sum to the summary's, and their pending amounts sum to at least the summary's |
| Aggregation.YearWiseWithinSummary | backend/server.js:266-373 | the year buckets count exactly the records that have a year, which is at most `total_students`, and count no more paid or unpaid records than the summary |
| Aggregation.Distribution | backend/server.js:412-416 | the histogram's keys are exactly the paid statuses met |
| Aggregation.PaidDistribution | backend/server.js:412-416 | the counting loop computes each status's number of records |
| Aggregation.RunningSize | backend/server.js:313-319 | a bucket's paid and unpaid counts add up to its group's size |
| Aggregation.CountTotalOfGroups | backend/server.js:412-416 | the histogram counts over some statuses add up to those groups' sizes |
| Aggregation.DistributionTotal | backend/server.js:412-422 | the histogram's counts add up to `data.length` |
| SheetListing.AvailableSheets | backend/server.js:235-240 | the listing is no longer than the metadata, and every listed name is in `VALID_SHEETS` |
| SheetListing.AvailableSheetsKeepOrder | backend/server.js:235-240 | the listing is the tabs at increasing positions, with their titles and ids, and a tab is listed exactly when its title is a valid sheet name |
| SheetListing.AllValidListed | backend/server.js:235-240 | when every tab has a valid title, all of them are listed |
| SheetListing.ListSheets | backend/server.js:224-258 | `/sheets` fails without a client or when the metadata call fails; otherwise it returns the filtered tabs, their count, the current month's sheet, the spreadsheet id and the valid range |
| ReportService.ReportInput | backend/server.js:263-264 | a resolution failure ends the request with that error; after a successful resolution, a failed fetch (no client, transport failure, fewer than two rows) ends it with the fetch's error, and a successful fetch makes the request succeed with the resolved sheet and its cleaned data; every loaded record has a room |
| ReportService.Load | backend/server.js:263-264 | resolving then loading computes `ReportInput` |
| ReportService.SummaryRoute | backend/server.js:261-287 | `/summary` succeeds exactly when loading does, passes on its failure, and returns the summary of the loaded records |
| ReportService.RoomWiseRoute | backend/server.js:290-335 | `/roomwise` succeeds exactly when loading does and returns the room buckets |
| ReportService.YearWiseRoute | backend/server.js:338-383 | `/yearwise` succeeds exactly when loading does and returns the year buckets |
| ReportService.RoomWiseReconcilesWithSummary | backend/server.js:261-325 | for the same inputs (the same client answers, `sheet` parameter and clock), the room report of `/roomwise` adds up to the figures of `/summary` |
| ReportService.SampleRows | backend/server.js:420 | `data.slice(0, 5)` has at most 5 records, is a prefix of the data, and is all of it when there are 5 or fewer |
| ReportService.DebugSampleRoute | backend/server.js:407-429 | `/debug/sample` returns the sample rows, the histogram, `data.length` and the record columns (none for an empty sheet) |
| ReportExample.HeaderNormalized | backend/server.js:150 | the header row "ROOM, PAID, AMOUNT, YEAR" normalises to itself |
| ReportExample.Amount2750 | backend/server.js:170 | "2750" is an amount of 2750 |
| ReportExample.ExampleSummary | backend/server.js:266-272 | a sheet with one paid room (2750) and one pending room (0) gives 2 students, 1 paid, 1 unpaid, 2750 paid, 0 pending, 2750 expected |
| ReportExample.ExampleRooms | backend/server.js:295-320 | the room report of that sheet has the rooms 101 and 102, in that order |

## Left out

- The `googleapis` client and credential loading (`initializeAuth`, backend/server.js:52-105) are not modelled. These are foreign asynchronous calls. `SheetsApi` stands in for them: a value holding each range's `values.get` answer and the metadata answer, either of which may be a failure.
- Express routing, CORS, the `/`, `/health` and `/debug/columns` routes, the 404 handler and server start-up are left out as HTTP plumbing. The same goes for the HTTP 500 wrapping of errors and the exact error message texts. A failure is an `Error` value: `InvalidSheetName` carries the original input, `NoData` carries the sheet, and `Transport` carries the client's message.
- Console logging is left out.
- The clock is left out. `new Date()` is replaced by a month index (0..11) and a full year passed in.
- The `sheet` query parameter is modelled only as a missing or string value. Express can also deliver an array or an object, and those are not modelled.
- JsText.ToUpper: only the ASCII letters a-z are upper-cased. Unicode case mappings (such as "ß" becoming "SS") are not modelled.
- RowNormalizer.ParseFloat: `parseFloat`'s "Infinity" prefix and binary floating-point rounding are not modelled: on text starting with "Infinity" the model reads no number (so the amount is 0) where JavaScript gives Infinity. The grammar it reads is modelled: leading whitespace, sign, digits, optional fraction and optional exponent.
- RowNormalizer.ParseAmount: amounts are exact reals, with no floating-point rounding and no values that overflow to infinity.
- Aggregation.Summarize: sums are exact real sums rather than floating-point sums in data order, so the model's totals are the mathematical ones. The same exactness underlies the cross-report equalities of Aggregation.BucketsReconcile, Aggregation.RoomWiseMatchesSummary and ReportService.RoomWiseReconcilesWithSummary: in the program, per-room floating-point sums and the single data-order sum of `/summary` can differ by rounding when amounts are not whole numbers.
- JavaScript objects as dictionaries are modelled as Dafny `map`s. The following are not modelled:
  - the order `JSON.stringify` writes keys in (integer-like keys first). `KeyOrder` records the first-occurrence order in which the loops insert the keys.
  - room or year keys that clash with `Object.prototype` members, such as a room called "constructor" or "__proto__". Paid statuses cannot clash, because they are upper-cased and every such member name has a lower-case letter.
- ReportExample: the example starts from the cleaned records and checks the header and one amount text on their own. A whole fetched row range taken through `Normalize` is not included as a worked example.
- The frontend (React components, the axios client and the mock data) is not part of this model.
