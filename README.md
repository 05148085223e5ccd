# Weekly and monthly progress linking, modelled in Dafny

The program is a batch job over a task-tracking workspace. It finds tasks
that were edited within a 65-minute trailing window, have a due date and have no weekly summary
link yet. For each task it reads three formula properties (Year, Week Number,
Month), looks up the weekly summary page whose title is the week text and the
monthly summary page whose title is the month name, both with the same Year,
and writes the relations it found back to the task as one partial update.

The model replaces every query with an in-memory collection behind an
endpoint that answers with a status code or fails outright
(`Query.Endpoint`). The server's filter is `Query.Select` over that
collection, in collection order. The clock is an integer number of minutes.
A run returns one outcome per discovered task: `Skipped`, `NoUpdate` or
`Patched(request)`, where the request is the PATCH that would be sent.

Modules, following the program's parts:

- `Workspace`: the records (tasks, summary records, formula results).
- `Query`: the query endpoint, the server-side filter and the first result.
- `Extraction`: reading year, week text and month text from formulas.
- `Resolver`: the (title, year) lookup, shared by the weekly and the monthly collection.
- `Discovery`: the selection of unlinked, recently edited tasks.
- `RelationWriter`: the partial-update payload, and the store's effect of applying it.
- `Sync`: the per-task processing and the run loop.
- `Scenarios`: concrete runs of one task.

A number-typed Week Number formula has no `"string"` slot (main.py:107), so
extraction fails and the task is skipped; `Scenarios.NumberWeekSkipped`
shows this for the number 41.

## Model

| member | source | states |
|---|---|---|
| `Query.Results` | main.py:76-88 | A query's results are exactly the collection rows the filter admits when the status is 200, and empty on any other status or a transport failure |
| `Query.SelectAppend` | main.py:84 | The server-side filter keeps collection order: filtering a concatenation gives the filtered parts concatenated |
| `Query.SelectSingle` | main.py:84 | A one-row collection yields that row exactly when the filter admits it |
| `Query.SelectHeadIsFirst` | main.py:162-167 | The first result of a filtered query is the first admitted row of the collection; every earlier row is rejected |
| `Extraction.ExtractTaskProperties` | main.py:91-123 | Extraction is atomic (all three values or none). It succeeds exactly when Year is a number formula whose number is not null, and Week Number and Month both hold non-empty text in the string slot. A missing number reads as year 0. Any non-number Year formula, and a Week Number or Month formula that is not string-typed, fails |
| `Resolver.FindPageWithYear` | main.py:126-225 | A returned id belongs to the first record whose title equals the text exactly and whose year equals the year exactly. The result is None exactly when the query fails or no record matches |
| `Resolver.UniqueMatchResolves` | main.py:140-167 | With exactly one matching record, the lookup returns that record's id, whatever records differ from it in title only or in year only |
| `Discovery.GetUnlinkedTasks` | main.py:47-88 | Discovery returns exactly the tasks with a due date, an empty weekly link and a last-edited time no earlier than 65 minutes before now. It returns nothing when the query fails |
| `Discovery.LinkedTaskNotRediscovered` | main.py:64-67 | A task that has a weekly link is never selected, at any clock reading |
| `RelationWriter.PlannedPatch` | main.py:228-249 | No request when neither id is truthy. Otherwise the request targets the task; it has the weekly-link key iff the weekly id is truthy and the monthly-link key iff the monthly id is truthy; each value is the one-element relation list of that id; no other key appears |
| `RelationWriter.UpdateTaskRelations` | main.py:234-249 | Building the payload by conditional insertion yields the request above, or no request for an empty payload |
| `RelationWriter.ApplyPatchIdempotent` | main.py:236-243 | A relation value replaces the old list rather than adding to it, so applying the same request twice equals applying it once |
| `Sync.TaskTitle` | main.py:282-286 | The title is "Untitled Task" for an empty title list. Otherwise it is the first fragment's text, and it is unreadable exactly when that fragment is malformed |
| `Sync.ProcessTask` | main.py:278-309 | A task is skipped, with the task's id, iff its title is malformed (a property error), extraction fails, or the extracted year is missing or 0. An unskipped task makes no request iff neither lookup yields a truthy id (query succeeded, first exact match has a non-empty id). Otherwise the request targets the task; each link key is present iff its lookup yields a truthy id, and its value is the one-element list of the first record whose title and year equal the task's extracted week (or month) text and year; no other key appears |
| `Sync.ProcessAll` | main.py:277-309 | A run yields one outcome per task, in order, each computed from its own task alone |
| `Sync.Run` | main.py:264-309 | The imperative loop, with its early exit and its `continue` on skip, produces exactly the per-task outcomes of the discovered tasks |
| `Sync.ProcessAllAppend` | main.py:277-309 | Tasks are independent: a run over two batches concatenated equals the two runs concatenated |
| `Sync.SkipNeedsNoLookup` | main.py:281-297 | A skipped task's outcome does not depend on either summary collection: it is decided before any lookup or write |
| `Sync.YearZeroSkipped` | main.py:289-293 | A year that is missing or zero passes extraction as 0, and the falsy-field test then skips the task |
| `Sync.LookupTruthy` | main.py:164-167 | A lookup gives a truthy id iff the query succeeds and the first matching record's id is non-empty; that id is the first match's |
| `Sync.WeeklyLinkedNotReselected` | main.py:64-67 | Once the store applies a request that sets the weekly link, the task is never discovered again |
| `Sync.MonthlyOnlyRepeats` | main.py:240-243 | A monthly-only request leaves the weekly link empty, so a run within the window selects the task again and sends the same request |
| `Scenarios.BothLinksWritten` | main.py:264-309 | Task T (2025, week "41", October, edited 10 minutes ago) is discovered, and with pages W1 and M1 present its request sets both links |
| `Scenarios.OnlyMonthlyWhenYearDiffers` | main.py:140-153 | When the weekly page has year 2024 instead of 2025, only the monthly link is set |
| `Scenarios.NumberWeekSkipped` | main.py:105-110 | A Week Number formula that yields the number 41 fails extraction and the task is skipped |
| `Scenarios.NothingFoundNoRequest` | main.py:245-247 | A failed weekly query together with a monthly query answered with an error status sends no request |

## Left out

- HTTP requests, URLs, headers and JSON encoding (main.py:40-45). Each query becomes an `Endpoint` value, and each PATCH becomes a `Patch` value in the run's outcomes.
- The PATCH response. Its success or failure is only logged and changes nothing else, so outcomes record the request that was issued. `RelationWriter.ApplyPatch` stands for the store applying a successful request.
- Pagination of the discovery query (main.py:84). The code reads only the first page of results, which the store limits to 100 rows, and never follows the continuation cursor. `Discovery.GetUnlinkedTasks` returns every eligible task, so it matches the code only while at most 100 tasks are eligible. Beyond that, the code processes the first page and the rest may leave the 65-minute window before a later run.
- Environment and secret loading and the exit on missing configuration (main.py:8-38). They are process bootstrap.
- Logging output (`print`). It has no effect on the decisions.
- `datetime.now`, `timedelta` and the ISO timestamp format. The clock is an integer number of minutes passed to `Sync.Run`.
- The order in which the store returns results. "First" means first in the modelled collection sequence.
- Transient failures of single lookup calls. Each summary collection has one endpoint for the whole run, so a lookup fails for every task of a run or for none.
- Float numbers in formula results and their truncation by `int()` (main.py:100). Year is an integer.
- `Extraction.ExtractTaskProperties`: the modelled exception paths are a null Year number (main.py:100, 121-123) and, in the run loop, a malformed first title fragment (main.py:284, 295-297, modelled by `Sync.TaskTitle`). Other malformed JSON shapes that would raise inside the handlers are not represented in the data model.
