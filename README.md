# Neo Backup scheduling core, modelled in Dafny

This project models the scheduling core of Neo Backup, an Android app that backs up apps and their data:

- The `Schedule` entity: its defaults, equality and hash, and its derived special filter.
- The `Schedule.Builder`, which creates, imports and adjusts schedules.
- The background task that turns a schedule id into the list of packages to back up.
- The schedule worker (`ScheduleWork`). It guards against duplicate runs with two run registries. It selects packages and queues one backup job per package. It folds the jobs' terminal states into a result. It also owns the companion functions that enqueue, reschedule and cancel periodic work.
- The in-memory backups map of `PackageRepository`.

Modules and files:

| file | module | models |
|---|---|---|
| `values.dfy` | `Values` | Kotlin conventions: nullable values, `Int`/`Long` ranges and wrap-around, set-typed lists, `filter`, `distinct`, `Long.toString()` |
| `schedule_entity.dfy` | `ScheduleEntity` | `Schedule`, `equals`, `hashCode`, `specialFilter`, `Builder` |
| `package_selection.dfy` | `PackageSelection` | the arguments both callers hand to `filterPackages` |
| `scheduled_action_task.dfy` | `ScheduledActionTask` | `doInBackground` |
| `run_registry.dfy` | `RunRegistry` | the check-and-set and the removal performed on a run registry |
| `work_results.dfy` | `WorkResults` | folding the jobs' work-info updates into `finished`, `errors` and `resultsSuccess` |
| `platform.dfy` | `Platform` | unique work names and the requests made to the job scheduler and notification service |
| `schedule_work_spec.dfy` | `ScheduleWorkSpec` | `processSchedule`, the repeat loop of `doWork` and `scheduleAll`, as functions of their inputs |
| `schedule_work.dfy` | `ScheduleWorker` | the worker and the process-wide state, as classes whose methods are proved against `ScheduleWorkSpec` |
| `package_repository.dfy` | `Repository` | `theBackupsMap` and the methods that change it |

How the model represents the system:

- **Two registries.** `ScheduleWork`'s private companion map `runningSchedules` and the application-wide `OABX.runningSchedules` are two separate fields of `ScheduleWorker.Runtime`: `companionRunning` and `oabxRunning`. Only the value `true` blocks a run; a `false` entry is present but does not block.
- **The companion guard never fires.** The companion map is only ever written `false` (`ScheduleWork.kt:126`). So from an empty start, the duplicate guard at line 111 and the ignore branch of `scheduleAll` can never fire. `RunRegistry.MarkFalseKeepsNoneRunning` and `ScheduleWorkSpec.NoneRunningNeverIgnores` state this, and `DoWork` preserves it.
- **Requests to the platform.** Requests to WorkManager and to the notification service are appended to `Runtime.log` as `Platform.PlatformEvent` values. The wake lock is the field `wakelockHeld`.
- **Job updates.** The per-package job updates arrive as one finite sequence in delivery order.
- **Every terminal update counts.** A `SUCCEEDED`, `FAILED` or `CANCELLED` update delivered twice for one job is counted twice (`WorkResults.RepeatedTerminalCountedTwice`). The collector at `ScheduleWork.kt:186-191` does not deduplicate.
- **Unused results.** `processSchedule` computes `errors` and `resultsSuccess` but never reads them. `CollectResults` returns them, and `QueueAndAwait` discards them as the source does.
- **Dead branch.** The `else` branch at `ScheduleWork.kt:230-234` cannot be reached from `processSchedule`: when the selection is non-empty, so is `worksList`. `QueueAndAwait` still models the branch, because it takes the request list as a parameter.
- **A late duplicate removes the other run's marker.** When `beginSchedule` finds the schedule already claimed, `processSchedule` calls `endSchedule`, which removes that other run's `OABX` entry (`ScheduleWorkSpec.LateDuplicateRemovesOtherClaim`). The model treats each pass's job updates as a finite sequence, so in the model a pass that queues work returns once those updates are delivered. Under that abstraction, with `pref_fakeScheduleDups` above zero, the second pass is a late duplicate whenever the first pass's jobs have not all finished (`ScheduleWorkSpec.FakeDuplicateDetectedLate`). In the program itself a pass that queues work does not return normally; see "Left out".
- **Set-typed lists.** Kotlin `Set<String>` fields keep their iteration order as `seq<string>`, and `equals` compares them as sets.

## Model

| member | source | states |
|---|---|---|
| ScheduleEntity.DefaultSchedule | src/main/java/com/machiav3lli/backup/data/dbs/entity/Schedule.kt:58-86 | every default: disabled, "New Schedule", 12:00, interval 1, placed now, user filter, APK mode, all sub-filters ALL, no timer, empty lists; the defaults satisfy the timing invariant |
| ScheduleEntity.Equals | src/main/java/com/machiav3lli/backup/data/dbs/entity/Schedule.kt:88-108 | reference definition of `equals`: null or another class is unequal; otherwise the sixteen fields other than `timeToRun` are compared, the three lists as sets |
| ScheduleEntity.EqualsIffSameKey | src/main/java/com/machiav3lli/backup/data/dbs/entity/Schedule.kt:88-108 | two schedules are equal exactly when their sixteen compared fields (lists as sets) agree |
| ScheduleEntity.EqualsIsEquivalence | src/main/java/com/machiav3lli/backup/data/dbs/entity/Schedule.kt:88-108 | equality is reflexive, symmetric and transitive |
| ScheduleEntity.EqualsIgnoresTimeToRun | src/main/java/com/machiav3lli/backup/data/dbs/entity/Schedule.kt:79-108 | schedules that differ only in `timeToRun` are equal although they are different values |
| ScheduleEntity.EqualsIgnoresListOrder | src/main/java/com/machiav3lli/backup/data/dbs/entity/Schedule.kt:105-107 | replacing `customList`, `blockList` and `tagsList` by lists with the same elements, in any order, keeps the schedule equal |
| ScheduleEntity.KeyHash | src/main/java/com/machiav3lli/backup/data/dbs/entity/Schedule.kt:110-129 | reference definition of `hashCode` over the compared fields: start at 7, then `31 * hash + h` with 32-bit wrap-around for each field in source order; `id` and `timePlaced` truncated to `Int`, `enabled` as 1 or 0, strings and sets through the given hashes |
| ScheduleEntity.HashCode | src/main/java/com/machiav3lli/backup/data/dbs/entity/Schedule.kt:110-129 | the 32-bit fold `31 * hash + field` from 7 is a function of the compared fields only (`id` and `timePlaced` truncated to `Int`) |
| ScheduleEntity.EqualSchedulesHashEqually | src/main/java/com/machiav3lli/backup/data/dbs/entity/Schedule.kt:110-129 | equal schedules hash equally |
| ScheduleEntity.SpecialFilterOf | src/main/java/com/machiav3lli/backup/data/dbs/entity/Schedule.kt:152-159 | installed is always INSTALLED; the other four sub-filters are copied unchanged |
| ScheduleEntity.EqualSchedulesSameSpecialFilter | src/main/java/com/machiav3lli/backup/data/dbs/entity/Schedule.kt:152-159 | equal schedules have the same special filter |
| ScheduleEntity.CopyWithId | src/main/java/com/machiav3lli/backup/data/dbs/entity/Schedule.kt:193-196 | only `id` changes, to the given value |
| ScheduleEntity.SpecialFilterValue | src/main/java/com/machiav3lli/backup/data/dbs/entity/Schedule.kt:198-204 | the stored filter is exactly `MAIN_FILTER_USER or MAIN_FILTER_SPECIAL` when `with` holds and exactly `MAIN_FILTER_USER` otherwise; so it always has the USER bit, and has the SPECIAL bit exactly when `with` holds |
| ScheduleEntity.CopyWithSpecial | src/main/java/com/machiav3lli/backup/data/dbs/entity/Schedule.kt:198-204 | only `filter` changes |
| ScheduleEntity.WithSpecialLastWins | src/main/java/com/machiav3lli/backup/data/dbs/entity/Schedule.kt:198-204 | of two `withSpecial` calls only the last one matters |
| ScheduleEntity.ImportedCopy | src/main/java/com/machiav3lli/backup/data/dbs/entity/Schedule.kt:206-215 | the export with the current id, disabled, placed now, no timer; every other field is the export's |
| ScheduleEntity.ExportFileCopy | src/main/java/com/machiav3lli/backup/data/dbs/entity/Schedule.kt:167-176 | the parsed schedule with only `enabled`, `timePlaced` and `timeToRun` changed |
| ScheduleEntity.ImportIsExportFileCopyWithId | src/main/java/com/machiav3lli/backup/data/dbs/entity/Schedule.kt:206-215 | importing equals the export-file copy with the builder's id kept |
| ScheduleEntity.ImportIdempotent | src/main/java/com/machiav3lli/backup/data/dbs/entity/Schedule.kt:206-215 | importing the same export twice at the same time equals importing it once |
| ScheduleEntity.ImportedEqualsExportIff | src/main/java/com/machiav3lli/backup/data/dbs/entity/Schedule.kt:206-215 | the import equals the export exactly when the export already had the kept id, was disabled and was placed now |
| ScheduleEntity.Builder.constructor | src/main/java/com/machiav3lli/backup/data/dbs/entity/Schedule.kt:164-165 | a new builder holds the default schedule |
| ScheduleEntity.Builder.FromExportFile | src/main/java/com/machiav3lli/backup/data/dbs/entity/Schedule.kt:167-191 | a parsed file gives a fresh builder holding the export-file copy; a missing file, a read error and any other failure give the three broken-backup errors |
| ScheduleEntity.Builder.WithId | src/main/java/com/machiav3lli/backup/data/dbs/entity/Schedule.kt:193-196 | the builder's schedule becomes the id copy and the builder itself is returned |
| ScheduleEntity.Builder.WithSpecial | src/main/java/com/machiav3lli/backup/data/dbs/entity/Schedule.kt:198-204 | the builder's schedule becomes the special-filter copy and the builder itself is returned |
| ScheduleEntity.Builder.Import | src/main/java/com/machiav3lli/backup/data/dbs/entity/Schedule.kt:206-215 | the builder's schedule becomes the imported copy of the export and the builder itself is returned |
| ScheduleEntity.Builder.Build | src/main/java/com/machiav3lli/backup/data/dbs/entity/Schedule.kt:217-219 | returns the current schedule unchanged |
| PackageSelection.AssociateBy | src/main/java/com/machiav3lli/backup/manager/tasks/ScheduledActionTask.kt:56 | one entry per package name in use, holding the last AppExtras row with that name |
| PackageSelection.AllTags | src/main/java/com/machiav3lli/backup/manager/tasks/ScheduledActionTask.kt:57 | exactly the tags carried by some AppExtras row |
| PackageSelection.KnownTags | src/main/java/com/machiav3lli/backup/manager/tasks/ScheduledActionTask.kt:58 | an order-preserving subsequence of the schedule's tags holding exactly those still carried by some package |
| PackageSelection.FilterInputs | src/main/java/com/machiav3lli/backup/manager/tasks/ScheduledActionTask.kt:84-92 | the filter receives the installed packages, the extras map, the schedule's filter and special filter, `customList` as allow list, global-then-schedule deny list and the known tags |
| PackageSelection.DenyListIsUnionOfBoth | src/main/java/com/machiav3lli/backup/manager/tasks/ScheduledActionTask.kt:53-55 | the deny list names exactly the globally and the schedule-blocked packages, with every entry of both kept |
| PackageSelection.StaleTagsIgnored | src/main/java/com/machiav3lli/backup/manager/tasks/ScheduledActionTask.kt:57-58 | a tag is passed to the filter exactly when the schedule has it and some package still carries it |
| PackageSelection.Names | src/main/java/com/machiav3lli/backup/manager/tasks/ScheduledActionTask.kt:92 | the package names of the filter's output, one per package, in order |
| ScheduledActionTask.DoInBackground | src/main/java/com/machiav3lli/backup/manager/tasks/ScheduledActionTask.kt:40-99 | a missing schedule gives ("DbFailed", [], MODE_UNSET); a storage error gives (name, [], MODE_UNSET); otherwise the name and the schedule's mode |
| ScheduledActionTask.SelectionComesFromFilter | src/main/java/com/machiav3lli/backup/manager/tasks/ScheduledActionTask.kt:83-98 | on success the selection is the filter output's names in order, and the filter saw the allow list, the union deny list and the tags still in use |
| ScheduledActionTask.FailuresIgnoreFilter | src/main/java/com/machiav3lli/backup/manager/tasks/ScheduledActionTask.kt:46-81 | on both failure paths the result selects nothing, carries MODE_UNSET and does not depend on the filter |
| ScheduledActionTask.SetModeMeansSuccess | src/main/java/com/machiav3lli/backup/manager/tasks/ScheduledActionTask.kt:94-98 | a result with a set mode came from a found schedule and readable storage and carries that schedule's mode |
| RunRegistry.Claim | src/main/java/com/machiav3lli/backup/tasks/ScheduleWork.kt:285-303 | succeeds exactly when the entry is not `true`; afterwards the entry is `true`; a failed claim leaves the map unchanged |
| RunRegistry.Release | src/main/java/com/machiav3lli/backup/tasks/ScheduleWork.kt:305-319 | afterwards the id has no entry and every other entry is as before |
| RunRegistry.DuplicateClaimRejected | src/main/java/com/machiav3lli/backup/tasks/ScheduleWork.kt:285-303 | of two claims without a release between, the second always fails and changes nothing |
| RunRegistry.ReleaseThenClaimSucceeds | src/main/java/com/machiav3lli/backup/tasks/ScheduleWork.kt:285-319 | after a release the id can be claimed again |
| RunRegistry.ReleaseIdempotent | src/main/java/com/machiav3lli/backup/tasks/ScheduleWork.kt:305-319 | a second release changes nothing |
| RunRegistry.ClaimThenReleaseLeavesNoMarker | src/main/java/com/machiav3lli/backup/tasks/ScheduleWork.kt:271-273 | begin followed by end leaves the same map as end alone, whether or not the begin succeeded |
| RunRegistry.OtherIdsUntouched | src/main/java/com/machiav3lli/backup/tasks/ScheduleWork.kt:285-319 | claims and releases of one id leave every other id's entry as it was |
| RunRegistry.MarkFalseKeepsNoneRunning | src/main/java/com/machiav3lli/backup/tasks/ScheduleWork.kt:111-126 | writing `false` keeps a registry without `true` entries, and the guard does not fire on such a registry |
| WorkResults.Finished | src/main/java/com/machiav3lli/backup/tasks/ScheduleWork.kt:186-191 | reference definition of `finished`: the number of SUCCEEDED, FAILED or CANCELLED updates delivered |
| WorkResults.AllSucceeded | src/main/java/com/machiav3lli/backup/tasks/ScheduleWork.kt:192-206 | reference definition of `resultsSuccess`: true, ANDed with the `succeeded` flag (default false) of every terminal update |
| WorkResults.ErrorReport | src/main/java/com/machiav3lli/backup/tasks/ScheduleWork.kt:194-205 | reference definition of `errors`: one `label: handled message` line per terminal update with a non-empty error, in delivery order |
| WorkResults.EndTriggers | src/main/java/com/machiav3lli/backup/tasks/ScheduleWork.kt:208-210 | reference definition of the `endSchedule` calls: one per terminal update after which `finished >= queued` |
| WorkResults.UpdateStep | src/main/java/com/machiav3lli/backup/tasks/ScheduleWork.kt:187-213 | a non-terminal or null update changes nothing; a terminal one adds one to `finished`, ANDs in its `succeeded` flag and adds one `label: message` line exactly when its error is non-empty |
| WorkResults.FinishedAppend | src/main/java/com/machiav3lli/backup/tasks/ScheduleWork.kt:191 | the finished count of two update runs is the sum of their counts |
| WorkResults.FinishedOrderIndependent | src/main/java/com/machiav3lli/backup/tasks/ScheduleWork.kt:184-216 | the finished count does not depend on which jobs' updates arrive first |
| WorkResults.FinishedAtMostUpdates | src/main/java/com/machiav3lli/backup/tasks/ScheduleWork.kt:191 | `finished` never exceeds the number of updates delivered |
| WorkResults.RepeatedTerminalCountedTwice | src/main/java/com/machiav3lli/backup/tasks/ScheduleWork.kt:186-191 | a terminal update delivered twice raises `finished` by two |
| WorkResults.AllSucceededIff | src/main/java/com/machiav3lli/backup/tasks/ScheduleWork.kt:192-206 | `resultsSuccess` holds exactly when every terminal update's `succeeded` flag (default false) is set |
| WorkResults.AllSucceededOrderIndependent | src/main/java/com/machiav3lli/backup/tasks/ScheduleWork.kt:206 | `resultsSuccess` does not depend on arrival order |
| WorkResults.ErrorReportEmptyIff | src/main/java/com/machiav3lli/backup/tasks/ScheduleWork.kt:196-205 | `errors` is empty exactly when no terminal update carried a non-empty error |
| WorkResults.EndTriggersIff | src/main/java/com/machiav3lli/backup/tasks/ScheduleWork.kt:208-210 | `endSchedule` is reached at least once exactly when `finished` reaches `queued` (and is positive) |
| WorkResults.ThreeJobsOneFailure | src/main/java/com/machiav3lli/backup/tasks/ScheduleWork.kt:168-213 | three jobs with one failure: finished is 3, the run is not successful, and the report has exactly the failing package's line |
| Platform.WorkKey | src/main/java/com/machiav3lli/backup/tasks/ScheduleWork.kt:476-482 | periodic work is named with the `schedule_work_` prefix and one-time work with `schedule_one_time_`, followed by the id |
| Platform.WorkKeyParts | src/main/java/com/machiav3lli/backup/tasks/ScheduleWork.kt:379-380 | the tenth character of a work name is `w` for `schedule_work_` and `o` for `schedule_one_time_`, and what follows the prefix is exactly the id's decimal text |
| Platform.WorkKeyInjective | src/main/java/com/machiav3lli/backup/tasks/ScheduleWork.kt:379-380 | two unique work names coincide only for the same id and the same kind |
| ScheduleWorkSpec.SelectedItems | src/main/java/com/machiav3lli/backup/tasks/ScheduleWork.kt:237-268 | a non-empty selection implies the schedule was found and the storage was readable |
| ScheduleWorkSpec.SameSelectionAsBackgroundTask | src/main/java/com/machiav3lli/backup/tasks/ScheduleWork.kt:237-268 | the worker selects exactly what the background task selects from the same inputs |
| ScheduleWorkSpec.Works | src/main/java/com/machiav3lli/backup/tasks/ScheduleWork.kt:173-182 | one request per selected package, in order, with the mode, notification id and batch name, as a backup and not immediate |
| ScheduleWorkSpec.QueueStep | src/main/java/com/machiav3lli/backup/tasks/ScheduleWork.kt:219-234 | reference definition of the queueing step: with requests, claim and enqueue the chain (released when the end trigger fires) or, on a claimed id, release and fail; with none, claim, release and fail |
| ScheduleWorkSpec.ProcessStep | src/main/java/com/machiav3lli/backup/tasks/ScheduleWork.kt:149-235 | reference definition of one `processSchedule` pass: an empty selection takes the empty-selection path; otherwise cancel the notification, begin the batch and take the queueing step with the schedule's mode |
| ScheduleWorkSpec.EmptySelectionFails | src/main/java/com/machiav3lli/backup/tasks/ScheduleWork.kt:153-158 | an empty selection fails the pass, leaves no claim, posts only the empty-selection notification |
| ScheduleWorkSpec.SuccessfulStepQueuesSelection | src/main/java/com/machiav3lli/backup/tasks/ScheduleWork.kt:160-225 | a pass succeeds exactly when something is selected and the id was not claimed; it then enqueues one backup per selected package with the schedule's mode |
| ScheduleWorkSpec.ClaimHeldUntilAllFinished | src/main/java/com/machiav3lli/backup/tasks/ScheduleWork.kt:208-224 | after a successful pass the claim is held exactly when fewer jobs finished than were queued |
| ScheduleWorkSpec.LateDuplicateRemovesOtherClaim | src/main/java/com/machiav3lli/backup/tasks/ScheduleWork.kt:226-229 | a pass that meets an existing claim fails and removes that claim |
| ScheduleWorkSpec.StepTouchesOnlyItsId | src/main/java/com/machiav3lli/backup/tasks/ScheduleWork.kt:285-319 | a pass leaves every other schedule's registry entry as it was |
| ScheduleWorkSpec.StepFailureLeavesNoClaim | src/main/java/com/machiav3lli/backup/tasks/ScheduleWork.kt:149-235 | a failed pass never leaves an entry for its id |
| ScheduleWorkSpec.RepeatOutcome | src/main/java/com/machiav3lli/backup/tasks/ScheduleWork.kt:128-136 | reference definition of the repeat loop: each pass requests `scheduleNext` then runs `processSchedule`; the first failed pass ends the run with Failure; all passes succeeding gives Success |
| ScheduleWorkSpec.FailedRunLeavesNoClaim | src/main/java/com/machiav3lli/backup/tasks/ScheduleWork.kt:128-136 | a run that fails in any pass ends with no entry for its id |
| ScheduleWorkSpec.SuccessfulRunClaimedIffLastUnfinished | src/main/java/com/machiav3lli/backup/tasks/ScheduleWork.kt:128-136 | a successful run stays claimed exactly when its last pass's jobs have not all finished |
| ScheduleWorkSpec.SuccessfulRunSchedulesNextPerPass | src/main/java/com/machiav3lli/backup/tasks/ScheduleWork.kt:128-136 | a successful run requests `scheduleNext` exactly once per pass |
| ScheduleWorkSpec.FakeDuplicateDetectedLate | src/main/java/com/machiav3lli/backup/tasks/ScheduleWork.kt:128-136 | under finite job updates, with a second pass, unfinished first-pass jobs make the second pass a late duplicate: the run fails and no claim remains |
| ScheduleWorkSpec.Iterations | src/main/java/com/machiav3lli/backup/tasks/ScheduleWork.kt:128 | `1 + fakeScheduleDups` passes for a non-negative preference below `Int.MAX_VALUE`, none for a negative one or for the wrapped sum |
| ScheduleWorkSpec.PeriodicRequest | src/main/java/com/machiav3lli/backup/tasks/ScheduleWork.kt:389-417 | reference definition of the periodic request: the periodic unique name, CANCEL_AND_REENQUEUE or UPDATE as `reschedule` says, the interval in days, the computed initial delay, tag `schedule_periodic_<id>`, input data (id, name, periodic) |
| ScheduleWorkSpec.ImmediateRequest | src/main/java/com/machiav3lli/backup/tasks/ScheduleWork.kt:427-450 | reference definition of the one-time request: the one-time unique name, REPLACE, tag `schedule_<id>`, input data (id, name, not periodic) |
| ScheduleWorkSpec.PeriodicEvents | src/main/java/com/machiav3lli/backup/tasks/ScheduleWork.kt:383-417 | no request for a disabled schedule; otherwise one, under the schedule's periodic work name |
| ScheduleWorkSpec.NewSchedulesAreNotEnqueued | src/main/java/com/machiav3lli/backup/tasks/ScheduleWork.kt:384 | imported, export-file and default schedules are disabled, so enqueueing them requests nothing |
| ScheduleWorkSpec.RequestsKeyedBySchedule | src/main/java/com/machiav3lli/backup/tasks/ScheduleWork.kt:412-446 | periodic and one-time requests never share a name, and neither do two schedules' requests |
| ScheduleWorkSpec.Decide | src/main/java/com/machiav3lli/backup/tasks/ScheduleWork.kt:456-471 | ignore exactly the running ids, enable exactly the idle enabled schedules, cancel exactly the idle disabled ones |
| ScheduleWorkSpec.DecisionEvents | src/main/java/com/machiav3lli/backup/tasks/ScheduleWork.kt:457-471 | every request for a schedule is under its periodic work name |
| ScheduleWorkSpec.ScheduleAllEvents | src/main/java/com/machiav3lli/backup/tasks/ScheduleWork.kt:452-474 | reference definition of `scheduleAll`'s requests: for each stored schedule in order, the requests of its decision |
| ScheduleWorkSpec.NoneRunningNeverIgnores | src/main/java/com/machiav3lli/backup/tasks/ScheduleWork.kt:456-460 | with no `true` companion entry nothing is ignored |
| ScheduleWorkSpec.ScheduleAllPerSchedule | src/main/java/com/machiav3lli/backup/tasks/ScheduleWork.kt:452-474 | with distinct ids, the requests under a schedule's periodic name are exactly its own decision's: none, its UPDATE enqueue, or its cancel |
| ScheduleWorker.Runtime.constructor | src/main/java/com/machiav3lli/backup/tasks/ScheduleWork.kt:381 | both registries start empty, no wake lock, no requests |
| ScheduleWorker.Runtime.EnqueuePeriodic | src/main/java/com/machiav3lli/backup/tasks/ScheduleWork.kt:383-425 | appends exactly the periodic requests of the schedule: none when disabled, otherwise one with CANCEL_AND_REENQUEUE or UPDATE as `reschedule` says |
| ScheduleWorker.Runtime.EnqueueImmediate | src/main/java/com/machiav3lli/backup/tasks/ScheduleWork.kt:427-450 | appends the one-time REPLACE request under the one-time name |
| ScheduleWorker.Runtime.Cancel | src/main/java/com/machiav3lli/backup/tasks/ScheduleWork.kt:476-482 | appends the cancellation of the periodic or one-time name |
| ScheduleWorker.Runtime.ScheduleAll | src/main/java/com/machiav3lli/backup/tasks/ScheduleWork.kt:452-474 | appends, schedule by schedule in order, the requests of its decision against the companion registry |
| ScheduleWorker.ScheduleWork.constructor | src/main/java/com/machiav3lli/backup/tasks/ScheduleWork.kt:79-80 | the id is the input id or -1, the notification id the clock truncated to `Int` |
| ScheduleWorker.ScheduleWork.BeginSchedule | src/main/java/com/machiav3lli/backup/tasks/ScheduleWork.kt:285-303 | the result and the new `OABX` registry are those of a claim of the worker's id |
| ScheduleWorker.ScheduleWork.EndSchedule | src/main/java/com/machiav3lli/backup/tasks/ScheduleWork.kt:305-319 | the new `OABX` registry is the release of the worker's id |
| ScheduleWorker.ScheduleWork.HandleEmptySelectedItems | src/main/java/com/machiav3lli/backup/tasks/ScheduleWork.kt:271-283 | claim then release, and one empty-selection notification |
| ScheduleWorker.ScheduleWork.BuildWorks | src/main/java/com/machiav3lli/backup/tasks/ScheduleWork.kt:173-182 | the list built is one request per selected package, in order |
| ScheduleWorker.ScheduleWork.CollectResults | src/main/java/com/machiav3lli/backup/tasks/ScheduleWork.kt:168-216 | the loop computes `finished`, `errors` and `resultsSuccess` as the fold over the updates and releases the claim exactly when `endSchedule` is reached |
| ScheduleWorker.ScheduleWork.QueueAndAwait | src/main/java/com/machiav3lli/backup/tasks/ScheduleWork.kt:219-234 | claim and enqueue the chain, or end on a late duplicate, or begin and end with nothing to queue |
| ScheduleWorker.ScheduleWork.ProcessSchedule | src/main/java/com/machiav3lli/backup/tasks/ScheduleWork.kt:149-235 | result, registry and requests are those of one pass as specified |
| ScheduleWorker.ScheduleWork.RepeatPasses | src/main/java/com/machiav3lli/backup/tasks/ScheduleWork.kt:128-136 | the loop requests `scheduleNext` before each pass and stops at the first failed pass, as specified |
| ScheduleWorker.ScheduleWork.DoWork | src/main/java/com/machiav3lli/backup/tasks/ScheduleWork.kt:94-147 | the wake lock is released on every exit; a negative id or a `true` companion entry fails with nothing changed; otherwise the companion entry becomes `false` and the passes run; no `true` companion entry is ever created |
| Repository.WithName | src/main/java/com/machiav3lli/backup/data/dbs/repository/PackageRepository.kt:88 | a backup occurs in the group exactly when it occurs in the input under the named package; the group is no longer than the input |
| Repository.WithNameCounts | src/main/java/com/machiav3lli/backup/data/dbs/repository/PackageRepository.kt:88 | each backup of the named package occurs in its group exactly as often as in the input; backups of other packages not at all |
| Repository.GroupBy | src/main/java/com/machiav3lli/backup/data/dbs/repository/PackageRepository.kt:88 | the keys are exactly the package names occurring; each maps to that package's backups in input order, never empty |
| Repository.Retained | src/main/java/com/machiav3lli/backup/data/dbs/repository/PackageRepository.kt:114 | the kept keys are exactly those in the list; their entries are unchanged |
| Repository.BackupsOf | src/main/java/com/machiav3lli/backup/data/dbs/repository/PackageRepository.kt:58 | the stored list, or the empty list for an absent package |
| Repository.FlattenedRemove | src/main/java/com/machiav3lli/backup/data/dbs/repository/PackageRepository.kt:60 | the flattened backups are one key's backups plus the rest's, whichever key is taken |
| Repository.GroupByKeepsEveryBackup | src/main/java/com/machiav3lli/backup/data/dbs/repository/PackageRepository.kt:85-90 | after replacing, the flattened map holds exactly the given backups, as a multiset |
| Repository.GroupedLookup | src/main/java/com/machiav3lli/backup/data/dbs/repository/PackageRepository.kt:85-90 | after replacing, every package's lookup is its backups in input order, empty when it has none |
| Repository.GroupByOrderWithinPackage | src/main/java/com/machiav3lli/backup/data/dbs/repository/PackageRepository.kt:88 | a later backup goes to the end of its own group and no other group changes |
| Repository.RetainedIdempotent | src/main/java/com/machiav3lli/backup/data/dbs/repository/PackageRepository.kt:112-116 | deleting the same non-listed keys twice changes nothing more |
| Repository.PackageRepository.constructor | src/main/java/com/machiav3lli/backup/data/dbs/repository/PackageRepository.kt:35 | the map starts empty |
| Repository.PackageRepository.GetBackups | src/main/java/com/machiav3lli/backup/data/dbs/repository/PackageRepository.kt:58 | the stored list or empty; non-empty only for a stored package |
| Repository.PackageRepository.GetAllBackups | src/main/java/com/machiav3lli/backup/data/dbs/repository/PackageRepository.kt:60 | the loop returns exactly the backups stored under all keys, as a multiset |
| Repository.PackageRepository.UpdateBackups | src/main/java/com/machiav3lli/backup/data/dbs/repository/PackageRepository.kt:79-83 | the package maps to the new list; every other key is unchanged |
| Repository.PackageRepository.ReplaceBackups | src/main/java/com/machiav3lli/backup/data/dbs/repository/PackageRepository.kt:85-90 | the map becomes the grouping of the input whatever it held, so a repeated call leaves the same map |
| Repository.PackageRepository.EmptyBackupsTable | src/main/java/com/machiav3lli/backup/data/dbs/repository/PackageRepository.kt:98-102 | the map becomes empty |
| Repository.PackageRepository.DeleteBackupsOf | src/main/java/com/machiav3lli/backup/data/dbs/repository/PackageRepository.kt:106-110 | only the given key is removed |
| Repository.PackageRepository.DeleteBackupsNotIn | src/main/java/com/machiav3lli/backup/data/dbs/repository/PackageRepository.kt:112-116 | the keys become those in the list; entries with listed keys are unchanged |

## Left out

- Collaborators whose bodies are not part of this model are parameters, and nothing is assumed about them. These are `filterPackages`, `getInstalledPackageList` and `ensureBackups` (together one storage outcome), `calcRuntimeDiff`, `WorkHandler.getBatchName`, `LogsHandler.handleErrorMessages`, `String.hashCode` and `Set.hashCode`. `scheduleNext` becomes a recorded request.
- The values of `MAIN_FILTER_USER`, `MAIN_FILTER_SPECIAL`, `MODE_UNSET`, `MODE_APK` and the filter enum ordinals come from the application's constants file, which is not part of this model.
- Logging is left out because it has no effect on state. This covers Timber, `textLog`, `traceSchedule`, `beginLogSection`/`endLogSection`, `LogsHandler.logErrors` and the support-info dumps.
- The notification is reduced to its id. `getForegroundInfo`, `createForegroundNotification` and `createNotificationChannel` are user-interface code. The `Constraints` object is built but never used. The one-time request's expedited setting (`RUN_AS_NON_EXPEDITED_WORK_REQUEST`, `ScheduleWork.kt:438`) is not recorded in `ImmediateRequest`: it affects only how the platform runs the work.
- Concurrency is left out:
  - The collectors run concurrently; the model folds one interleaving of their updates.
  - The registries are concurrent maps; the model uses plain maps.
  - `scheduleAll` runs on its own thread; the model runs it to completion.
  - The repository mutex serializes its methods; the model needs no lock.
  - The extras table is read twice, at `ScheduledActionTask.kt:56-57` and at `ScheduleWork.kt:245-246`: once for the extras map and once for the tag universe. The model takes one snapshot, `SelectionContext.extras`, for both, so it does not capture a write between the two reads.
- `awaitAll` and `coroutineScope` wait on work-info flows that do not complete. The model treats the delivered updates as finite. After a late duplicate, `processSchedule` returns `false` at once in the model, without waiting for the collectors of requests that were never enqueued.
- ScheduleWorker.ScheduleWork.DoWork: in the program, a pass that queues work never returns normally, because `workJobs.awaitAll()` (`ScheduleWork.kt:224`) waits on collectors of flows that do not complete. The run then ends only by cancellation, through the catch-all at `ScheduleWork.kt:141-143`, as Failure, and can leave its `OABX` entry set. The model's Success after such a pass, and every pass after it, exist only under the finite-update abstraction.
- ScheduleWorker.ScheduleWork.DoWork: does not model the catch-all at `ScheduleWork.kt:141-143`, because no collaborator in the model throws. The storage exceptions are modelled as the empty selection.
- Serialization (`toSerialized`, `fromSerialized`), `toString` and `Schedule.getBatchName` are left out because they delegate to library calls. Reading and parsing the export file arrives as an `ExportRead` value.
- `PackageRepository` operations that use the database, the shell or timed flows are left out as I/O: `getBackupsFlow`, `getPackagesFlow`, `updatePackage`, `upsertAppInfo`, `replaceAppInfos`, `rewriteBackup`, `deleteAppInfoOf`, `deleteBackup`, `deleteAllBackups`, `enableDisable` and `uninstall`.
- Repository.PackageRepository.GetAllBackups: states the result as a multiset only, because the key order of `ConcurrentHashMap` is unspecified.
- Registry keys are unbounded integers instead of `Long`. Every id that reaches a registry is an `Int64`, so nothing is lost.
