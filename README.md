# Dynamic `fullName` field job, modelled in Dafny

This project models the `sheet:dynamicAPIfield` job handler of a Flatfile
listener. The handler starts when the custom job created after a mapping job
is ready. It then:

1. acknowledges the job;
2. reads the workbook, the custom job and the mapping job's execution plan;
3. collects the destination field keys of the plan.

When both `first_name` and `last_name` were mapped, the handler also:

4. adds a `fullName` string column to the first sheet;
5. backfills that column page by page, starting at page 1 and stopping at the
   first empty page.

Each record's `fullName` becomes the first name, a space and the last name.
The record's id and every other value are kept. Each transformed page is
written back. Finally the job is completed. If anything raised, the job is
failed instead.

The Flatfile platform is modelled as a value, `DynamicFieldJob.Env`. It
answers every lookup:

- the workbook's sheets;
- the mapping job id;
- the field mapping;
- the pages of the first sheet, where every page past the last one is empty;
- the position in the call log of the first remote call of the `try` block
  that raises, if any (the calls after it are never issued);
- whether the `fail` call of the `catch` block raises as well.

The handler's effect is the log of remote calls it issues, together with the
job's outcome.

- `records.dfy` (`Records`): records, and the per-record and per-page
  transform.
- `mapping.dfy` (`Mapping`): the mapped-field collection loop and the guard.
- `job.dfy` (`DynamicFieldJob`): the handler as a value-level specification
  (`Run`) and as imperative methods proved equal to it. The methods are
  `Lookups`, `TryBlockSteps`, `BackfillFullName` (the `while (true)` loop with
  its post-incremented page counter) and `HandleDynamicFieldJob`.
- `job_properties.dfy` (`JobProperties`): what a run fetches, writes, adds and
  how it ends.
- `scenarios.dfy` (`JobScenarios`): concrete runs.

A record lacking `first_name` or `last_name` is modelled as an explicit
`MissingField` error. In the handler, reading `.value` of `undefined` raises a
TypeError at index.ts:172, and the `catch` at index.ts:200 handles it. The
model does the same.

When the workbook has no sheet, `sheet` is `undefined`. Reading `sheet.id` at
index.ts:141 then raises, so the model sends the run to `catch` before
`addField`.

The comment at index.ts:134 says the field is created only if no field with
that key exists yet, but index.ts:141 always calls `addField` once the guard
holds. The model follows the code, so a second run issues `addField` again.

## Model

| member | source | states |
|---|---|---|
| `Records.TransformRecord` | index.ts:166-178 | The result succeeds exactly when both `first_name` and `last_name` are present. Otherwise it is an error, which the model tags with the record and with `first_name` if that is missing, else `last_name` (the source's TypeError carries neither). On success the id is kept, the keys are the old keys plus `fullName`, `fullName` is first + " " + last, and every other value is unchanged. |
| `Records.TransformPageOk` | index.ts:166-180 | A page transforms exactly when every record has both name parts. The result then has the page's length and holds, at each position, the transform of the record at that position. |
| `Records.TransformPageErr` | index.ts:166-180 | A page that fails reports the error of a record whose predecessors all have both name parts, that is, the first failing record. |
| `Records.TransformRecordIdempotent` | index.ts:169-172 | Transforming an already transformed record gives the same record again. |
| `Records.TransformPageIdempotent` | index.ts:166-180 | Backfilling a page that was already backfilled gives the same page. |
| `Mapping.CollectMappedFields` | index.ts:125-132 | The collected keys hold exactly the `destinationField.key` of each plan entry, one per entry, in plan order. |
| `Mapping.GuardOnPlan` | index.ts:138 | The guard holds if and only if some plan entry maps onto `first_name` and some entry maps onto `last_name`. |
| `DynamicFieldJob.Lookups` | index.ts:104-122 | Issues ack (with info and progress 10), get workbook, get job and get execution plan in that order. It stops right after the first of these that raises. |
| `DynamicFieldJob.BackfillFullName` | index.ts:150-185 | The loop's calls are exactly the loop specification's calls, and it raises by itself exactly when the specification does. If a remote call raises, the log ends with that call and is a prefix of the specification's calls. |
| `DynamicFieldJob.TryBlockSteps` | index.ts:101-198 | The `try` block's calls are exactly the specification's. If a remote call raises, the log stops at that call. |
| `DynamicFieldJob.HandleDynamicFieldJob` | index.ts:96-211 | The handler's call log and outcome equal `Run(env)`: the `try` block, then `fail` if anything raised in it; the outcome is unhandled when `fail` raises too. |
| `DynamicFieldJob.RaisedInTry` | index.ts:200-208 | Once a remote call of the `try` block raises, the run is the `catch` block after that call. |
| `DynamicFieldJob.TryBlockEnded` | index.ts:187-208 | A `try` block that ran to its end completes the job, unless it raised by itself, in which case the `catch` block issues `fail`. |
| `JobProperties.FirstStop` | index.ts:153-163 | The first page from a given number on where the loop stops: it is empty, or one of its records lacks a name part. No earlier page stops the loop. |
| `JobProperties.LoopFetches` | index.ts:150-163 | The loop fetches every page from its start up to the stopping page, each once, in increasing order. |
| `JobProperties.LoopWrites` | index.ts:166-183 | The loop writes back the transformed records of every page before the stopping page, in page order, and nothing else. |
| `JobProperties.LoopEnds` | index.ts:153-185 | The loop raises by itself exactly when its stopping page is non-empty. Each of its calls is a fetch or an update of the one sheet. |
| `JobProperties.LoopLastFetch` | index.ts:153-163 | The last call of the loop is the fetch of the page where it stops, so nothing follows the fetch of an empty page or of a page that fails. |
| `JobProperties.RunEnds` | index.ts:101-208 | A run is the issued part of the `try` block, then one `fail` unless it completed. Completion happens only when nothing raised, and `complete` is then the last call. The run is unhandled exactly when it did not complete and `fail` itself raised. |
| `JobProperties.TryEndsWithComplete` | index.ts:101-198 | The `try` block starts with the four lookups, and unless it raises by itself it ends with `complete` after them. |
| `JobProperties.GuardOffSkipsBackfill` | index.ts:138-198 | Without both name fields mapped, no column is added and no record is fetched or written. With no remote call raising, the run is the four lookups followed by `complete`, and the job completes. |
| `JobProperties.PagesRequestedInOrder` | index.ts:150-158 | Whatever raises, the pages requested are 1, 2, 3, ... in that order, so no page is requested twice. |
| `JobProperties.AddFieldOnceBeforeFetches` | index.ts:138-150 | `addField` is issued at most once: for `fullName` on the first sheet, as the fifth call, and before every record fetch and update. When the guard holds, a sheet exists and no lookup raised, it is issued, with no existence check. |
| `JobProperties.BackfillRun` | index.ts:150-208 | With no remote call of the `try` block raising: pages 1 up to the stopping page are fetched, and every page before it is written back transformed. The job completes exactly when the stopping page is empty. Otherwise `fail` follows right after the fetch of the stopping page, and the job is failed, or unhandled if `fail` raises. |
| `JobProperties.BackfillCounts` | index.ts:153-183 | If pages 1..k all transform and page k+1 is empty: exactly k+1 fetches and k updates, update i carries transformed page i+1, and the job completes. |
| `JobProperties.MissingNameAborts` | index.ts:172-208 | If page p is the first that fails to transform: pages 1..p are fetched, only pages 1..p-1 are written, no update is issued for page p or later, and the run ends with `fail`, not `complete`: the job is failed, or unhandled if `fail` raises. |
| `JobProperties.CleanRunOutcome` | index.ts:138-208 | With no remote call of the `try` block raising, the job completes if and only if the guard is off, or a sheet exists and the loop stopped on an empty page. Otherwise it is failed, or unhandled if `fail` raises. |
| `JobProperties.RemoteFailureKeepsEarlierCalls` | index.ts:101-208 | When a remote call of the `try` block raises, the run is the clean run's calls up to and including that call, then `fail`. Pages already written stay written. The job is failed, or unhandled if `fail` raises as well. |
| `JobScenarios.AdaLovelaceBackfilled` | index.ts:138-198 | A one-record page with Ada Lovelace is written back with `fullName` "Ada Lovelace" after `addField`, then page 2 comes back empty and the job completes. |
| `JobScenarios.MissingLastNameFails` | index.ts:166-208 | A record without a last name leads to no update, and the job is failed right after page 1 is fetched. |
| `JobScenarios.CompleteRaisesFails` | index.ts:190-208 | When `complete` itself raises, the `catch` block fails the job. |
| `JobScenarios.CompleteAndFailRaiseUnhandled` | index.ts:190-208 | When both `complete` and the `fail` of the `catch` block raise, the job is left unhandled. |

## Left out

- The `space:configure` handler (index.ts:17-68), the `workbook:map`
  completion handler (index.ts:71-93) and the `workbook:submitAction` webhook
  handler (index.ts:214-278). These are sequences of remote calls and an HTTP
  POST with no logic of the core.
- workbook.ts: it is a static sheet configuration with no behaviour.
- The Flatfile API's internals and `async`/`await` suspension. Every remote
  call is a lookup in `Env`. Any call of the `try` block may raise
  (`Env.brokenCall` is the first that does), and so may `fail`
  (`Env.failRaises`). The
  contents of a raised error, what `fail` is told, and events logged by the
  platform are not modelled.
- Ack progress and information are recorded in the call log but have no
  modelled effect on the platform. The same holds for the `acknowledge` flag
  of `complete`.
- Field values are modelled as strings. The `{ value: ... }` wrapper is dropped,
  and JavaScript coercion of non-string values (numbers, `null`) in the string
  concatenation is not modelled. A present value is always a string.
- In-place mutation of `r.values` (index.ts:169-172) is modelled by
  returning the updated map. The fetched records are not observed after
  the update, so aliasing between fetched and written records is not
  captured. A record on a page that later fails keeps its in-memory
  `fullName`, but it is never written back.
- The mapping job's plan is read only for `destinationField.key`. The rest of
  the execution plan, and of the custom job's input apart from
  `mappingJobId`, is not modelled.
- A platform that never returns an empty page cannot be expressed. `Env.pages`
  is finite and every page past it is empty, so every run ends.
