# Payment-period and data-store core of a time-tracking backend, in Dafny

This project models the core of a small backend service that tracks specialists,
client projects, time entries and payment periods, and serves filtered read
endpoints over catalogs loaded from JSON files.

- **Payment periods** (`payment.dfy`). A `PaymentPeriod` class keeps its embedded
  time entries and three running aggregates: hours per specialist, hours per
  project, and total hours. `AddTimeEntry` appends an entry and folds it into all
  three. The invariant `TotalsConsistent` says the aggregates equal the per-key
  sums of the entry list; `AddTimeEntry` preserves it. The constructor derives a
  display name from the date range when no `name` is supplied.
- **Date formatting** (`utils.dfy`, `dates.dfy`). `FormatDate` ("YYYY-MM-DD") and
  `FormatDateRange` ("Mon YYYY", "Mon - Mon YYYY" or "Mon YYYY - Mon YYYY"). Each
  has a parser that inverts it, and round-trip lemmas show what the text records.
- **Data store** (`mock_data_service.dfy`). `MockDataService` caches the three
  catalogs. Each is loaded on first use and never again, even when the load gave an
  empty list. It offers lookup by id (first match or None), a flattened and
  filtered view of all time entries, and per-kind equality filters combined with AND.
- **Period routes** (`periods.dfy`). These are the list, by-id and time-entries
  handlers, with their 404 responses and the post-filter on a period's entries.
- **Roles** (`specialist.dfy`). `FromConfig` selects the roles named by the
  `SPECIALIST_ROLES` setting, in declaration order.
- `seqs.dfy` holds the list comprehension `[x for x in xs if p(x)]` as `Filter`,
  with lemmas about order, membership, composition and commutation.

Outside inputs are parameters of the model:

- The file read and JSON parse become a `Load` value: `Loaded(items)`,
  `FileMissing` or `ParseFailed`. The three files at the moment of a call form a
  `Disk`, passed to every store method, so later calls can be seen to ignore it.
- The clock (`datetime.utcnow`) is a `now` parameter.
- The generated UUID is an `id` parameter.
- The `SPECIALIST_ROLES` setting is a parameter of `FromConfig`.

Two behaviours of the code are kept as written:

- A period constructed with initial entries does **not** compute its totals from
  them. They take the `specialist_totals`, `project_totals` and `total_hours`
  arguments when these are given, and otherwise empty maps and 0.0, whatever
  entries are given (backend/src/feptm/models/payment.py:52-55). The constructor
  promises the invariant only for an empty initial list with default totals.
- The `status` field accepts either enumeration, `PaymentStatus` or `PeriodStatus`.
  It is modelled as the sum `Status` of the two. The default is `Draft`.

## Model

| member | source | states |
|---|---|---|
| `Utils.FormatDate` | backend/src/feptm/core/utils.py:29-38 | the text is 10 characters: four year digits, '-', two month digits, '-', two day digits |
| `Utils.DigitsValueOfFixedDigits` | backend/src/feptm/core/utils.py:38 | a zero-padded number that fits its width reads back as that number |
| `Utils.FormatDateRoundTrip` | backend/src/feptm/core/utils.py:38 | parsing the formatted date gives back its year, month and day |
| `Utils.MonthOfAbbrev` | backend/src/feptm/core/utils.py:52-56 | each month's `%b` abbreviation names that month and no other |
| `Utils.FormatDateRange` | backend/src/feptm/core/utils.py:41-56 | the text is 8 characters iff month and year agree, 14 iff only the year agrees, 19 iff the years differ; it always starts with the start month's abbreviation and ends with the end date's year |
| `Utils.FormatDateRangeRoundTrip` | backend/src/feptm/core/utils.py:51-56 | parsing the range name gives back the month and year of both ends, in all three cases |
| `Utils.FormatDateRangeIgnoresDayAndTime` | backend/src/feptm/core/utils.py:51-56 | dates that agree in month and year give the same name; day and time are ignored, and no start-before-end check is made |
| `Utils.FormatDateRangeExamples` | backend/src/feptm/models/payment.py:98 | 2023-06-01..2023-06-30 gives "Jun 2023", 2023-06-01..2023-07-31 gives "Jun - Jul 2023", 2022-12-01..2023-01-31 gives "Dec 2022 - Jan 2023" |
| `Specialists.AllRolesListsEachRoleOnce` | backend/src/feptm/models/specialist.py:13-20 | the declaration-order list holds every role exactly once |
| `Specialists.FromConfig` | backend/src/feptm/models/specialist.py:22-29 | a role is included iff its value is configured; the result is a subsequence of the declaration order, with no duplicates and at most five roles |
| `Specialists.FromConfigDependsOnlyOnRoleValues` | backend/src/feptm/models/specialist.py:29 | two settings that name the same role values give the same list, whatever their order, repetitions or other strings |
| `Specialists.FromConfigIgnoresUnknown` | backend/src/feptm/models/specialist.py:29 | adding a string that names no role changes nothing |
| `Specialists.FromConfigDeveloperAndQA` | backend/tests/models/test_specialist.py:20-37 | the setting ["Developer", "QA"] gives exactly [Developer, QA] |
| `Specialists.FromConfigDefault` | backend/src/feptm/core/config.py:37-39 | the default setting gives all five roles in declaration order |
| `Payment.DerivedName` | backend/src/feptm/models/payment.py:59-63 | a supplied name is kept, even None; without one, two dates give the formatted range |
| `Payment.AddHours` | backend/src/feptm/models/payment.py:82-87 | the key set gains the entry's key; that key's total is its old value (0.0 if absent) plus the hours; every other key keeps its total |
| `Payment.SumHoursAppend` | backend/src/feptm/models/payment.py:90 | the hours of a list with one more entry are the old sum plus that entry's hours |
| `Payment.TotalsByAppend` | backend/src/feptm/models/payment.py:71-87 | folding one more entry into the totals of a list gives the totals of the longer list |
| `Payment.TotalsByKeys` | backend/src/feptm/models/payment.py:83-87 | a key has a total iff some entry carries it |
| `Payment.TotalsByArePerKeySums` | backend/src/feptm/models/payment.py:82-87 | each total equals the sum of the hours of exactly those entries that carry its key |
| `Payment.PaymentPeriod.constructor` | backend/src/feptm/models/payment.py:46-63 | the name comes from `DerivedName`; the status defaults to Draft; the entries are kept; each of `specialist_totals`, `project_totals`, `total_hours`, `created_at` and `updated_at` is taken as given, or else is an empty map, 0.0 or the current time, and the totals are never computed from the entries; the invariant holds with no entries and default totals |
| `Payment.PaymentPeriod.AddTimeEntry` | backend/src/feptm/models/payment.py:65-73 | the entry is appended at the end; both maps and the total gain its hours under its keys; `updatedAt` is the new time; the totals invariant is preserved; with non-negative hours no total decreases |
| `Payment.PaymentPeriod.UpdateTotals` | backend/src/feptm/models/payment.py:75-90 | the specialist map, the project map and the total each gain the entry's hours |
| `MockData.LoadData` | backend/src/feptm/services/mock_data_service.py:33-58 | a parsed file yields its items; a missing or unparsable file yields an empty list, not an error |
| `MockData.FirstWithId` | backend/src/feptm/services/mock_data_service.py:79-83 | the result is None iff no item has the id; otherwise it is an item with that id, and no earlier item has it |
| `MockData.FindById` | backend/src/feptm/services/mock_data_service.py:80-83 | the early-return scan returns the first item with the id, or None |
| `MockData.MockDataService.constructor` | backend/src/feptm/services/mock_data_service.py:23-28 | all three caches start empty |
| `MockData.MockDataService.GetSpecialists` | backend/src/feptm/services/mock_data_service.py:60-68 | the first call loads and caches; later calls return the cache without reading, even when it is empty |
| `MockData.MockDataService.GetProjects` | backend/src/feptm/services/mock_data_service.py:85-93 | the same load-once caching for projects |
| `MockData.MockDataService.GetPaymentPeriods` | backend/src/feptm/services/mock_data_service.py:110-118 | the same load-once caching for payment periods |
| `MockData.MockDataService.GetSpecialist` | backend/src/feptm/services/mock_data_service.py:70-83 | returns the first cached specialist with the id, or None |
| `MockData.MockDataService.GetProject` | backend/src/feptm/services/mock_data_service.py:95-108 | returns the first cached project with the id, or None |
| `MockData.MockDataService.GetPaymentPeriod` | backend/src/feptm/services/mock_data_service.py:120-133 | returns the first cached period with the id, or None |
| `MockData.AppendMatching` | backend/src/feptm/services/mock_data_service.py:155-160 | the inner loop appends exactly the matching entries of one period, in order |
| `MockData.CollectEntries` | backend/src/feptm/services/mock_data_service.py:151-162 | the result is exactly the entries that meet every criterion of `EntryMatches` (equal ids, and `Dates.LessEq` bounds on the date), in period-then-entry order, and is a subsequence of all periods' entries |
| `MockData.MockDataService.GetTimeEntries` | backend/src/feptm/services/mock_data_service.py:135-162 | the same, over the cached periods |
| `Dates.LexLessEqReflexive` | backend/src/feptm/services/mock_data_service.py:158-159 | `<=` on `datetime` holds between a value and itself, which the date bounds rely on |
| `Dates.LessEqTotalOrder` | backend/src/feptm/services/mock_data_service.py:158-159 | `Dates.LessEq`, which models `<=` on `datetime`, compares any two values one way or the other, and holds both ways only for equal values |
| `MockData.EntryOnBoundsMatches` | backend/src/feptm/services/mock_data_service.py:158-159 | both date bounds are inclusive |
| `MockData.NoCriteriaKeepsAll` | backend/src/feptm/services/mock_data_service.py:151-162 | with no criteria, the result is the concatenation of all periods' entry lists |
| `MockData.FilterSpecialists` | backend/src/feptm/services/mock_data_service.py:181-188 | filtering by `active` and then by `role` equals one filter by both conditions; the result is a subsequence; with neither key, the list is unchanged |
| `MockData.FilterProjects` | backend/src/feptm/services/mock_data_service.py:190-196 | the same for `status` and `project_type` |
| `MockData.FilterPeriods` | backend/src/feptm/services/mock_data_service.py:198-202 | the same for `status` |
| `MockData.EntryQueryOf` | backend/src/feptm/services/mock_data_service.py:204-210 | a criterion is set iff its key is present and not None, and it carries the key's value; other keys leave every criterion unset; the result is an error iff one of the four keys holds a value of the wrong type, and the error names such a key |
| `MockData.MockDataService.GetFilteredData` | backend/src/feptm/services/mock_data_service.py:164-213 | each kind returns its filtered list; `filters=None` acts as `{}`; an unknown kind is an error and leaves the caches unchanged; each cache is loaded at most once, and only the requested kind's cache can change ("time_entries" loads the periods) |
| `Periods.StatusFilters` | backend/src/feptm/api/v1/periods.py:25-27 | the forwarded filters hold only `status`, and only when a status is given |
| `Periods.StatusFiltersSelect` | backend/src/feptm/api/v1/periods.py:25-29 | without a status, every period is listed; with one, exactly the periods with that status value, in order |
| `Periods.GetPaymentPeriods` | backend/src/feptm/api/v1/periods.py:13-30 | the list route returns the cached periods, filtered by status when one is given; the specialist and project caches are left unchanged |
| `Periods.GetPaymentPeriod` | backend/src/feptm/api/v1/periods.py:33-51 | the response is 404 "Payment period with ID <id> not found" iff the lookup finds nothing; otherwise it is the period found |
| `Periods.PeriodEntries` | backend/src/feptm/api/v1/periods.py:78-84 | the post-filter equals one filter by both optional ids; the result is a subsequence of the entries; with neither id, the list is unchanged |
| `Periods.PeriodEntriesFilterOrder` | backend/src/feptm/api/v1/periods.py:79-82 | filtering by project first and by specialist second gives the same list |
| `Periods.GetPeriodTimeEntries` | backend/src/feptm/api/v1/periods.py:54-84 | 404 when the period is missing, before any filtering; otherwise the post-filtered entries of the period found |

## Left out

- Report aggregation (per-specialist amounts, per-project specialist counts): the
  reports route in the source is a stub that returns a fixed message
  (backend/src/feptm/api/v1/reports.py:8-11), so there is no behaviour to model.
- The specialists, projects and timesheets routers: they are stubs returning a
  constant message.
- The Google Sheets explorer script: OAuth, network and file-system calls.
- File I/O and JSON parsing in `_load_data`: these are replaced by the `Load`
  outcome. The log messages are not modelled.
- Pydantic validation (e-mail and URL checks, enum coercion, required fields). The
  records are modelled as already valid. A missing `start_date` or `end_date` is a
  validation error in the source, so the constructor takes both dates.
- Calendar validity of dates (such as 30 February), time zones, and the `TypeError`
  Python raises when naive and aware datetimes are compared.
- Identifier generation and the clock: they are parameters. The two default
  timestamps of a new period are taken as one value `now`.
- Floating-point arithmetic on hours: hours are `real`, so rounding is not modelled.
- Utils.FormatDate: `%Y` is modelled as four zero-padded digits. The C library on
  some platforms prints years below 1000 without padding.
- MockData.EntryQueryOf: a "time_entries" criterion of the wrong type is reported as
  `FilterTypeError` before anything is loaded. In the source, a wrongly typed id
  silently matches no entry. A wrongly typed date raises `TypeError` only when an
  entry reaches the comparison.
- Filter values are modelled as None, booleans, strings and dates. Python's
  `True == 1` across bool and int is not modelled.
- Logging setup, settings loading, the application factory and the routers' wiring.
