# Service Manager: verified model of its operations, catalogs, interceptors and listings

The Service Manager keeps service brokers, their catalogs, and the instances and bindings made from them, and carries out
slow changes as stored *operations*. This project models the parts of it that have state and many branches, and proves
what they keep over every input and every run.

* **Operations** (`OperationTypes`, `Scheduler`, `CascadeUtils`, `Protocol`). The operations table, the scheduler's
  goroutines, the clock and the maintainer's functors form one state machine. Its events are: submitting an operation or
  a cascade tree, polling one pending operation, an action marking its operation for deletion, the end of a job, a retry
  waking up, the three sweeps, the loss of goroutines, and time passing. A goroutine holds its own copy of the operation,
  as in the code, and writes that copy back.
  `Lifecycle`, `Mitigation`, `DeleteExclusion`, `RetryBound`, `RetryChain` and `RetryTotal` are about single operations.
  `CascadeTree`, `CascadeDeletions`, `CascadeOnce`, `CascadeSafety`, `CascadeErrors`, `CascadeProgress` and `Maintainer`
  are about trees.
  `RetryRace` and `CascadeRace` show where properties fail, and exactly when. `Cleanup` and `Division` are about deleting
  old rows.
* **Catalogs and visibilities** (`CatalogTypes`, `CatalogUpdate`, `CatalogPlans`, `CatalogFetch`, `CatalogBroker`,
  `ReferencePlans`, `Brokers`, `Visibilities`). Nested loops over shrinking maps, proved to replace a catalog and to
  reach the visibilities a plan should have.
* **Interceptors and notifications** (`InterceptorOrder`, `InterceptorGuard`, `Notifications`).
* **Listings and labels** (`PageToken`, `Paging`, `PagingChanges`, `ListClient`, `Labels`).

## A finding about retries

After a failed deletion the goroutine sleeps for the short or the long rescheduling delay and then schedules the copy of
the operation it read before (`operations/scheduler.go:531-569`). The maintainer takes an operation in mitigation to be
abandoned once its row is older than the action timeout (`operations/maintainer.go:508-549`). If a delay exceeds the
action timeout, as the long delay of one hour exceeds the default fifteen minutes (`operations/config.go:54-72`), the
sweep can finish the operation while the goroutine sleeps, and the goroutine then writes its old copy over the result.

The deletions themselves stay in order: what is below is deleted first, a success was carried out, a resource is deleted
for one operation of a tree only, a mitigated create never succeeds and retries are bounded, all for every setting
(`CascadeDeletions`, `CascadeOnce`, `Mitigation`, `RetryChain`, `RetryTotal`). What the overwritten rows no longer tell
are four things, and each holds if and only if no delay that can be chosen exceeds the action timeout, which `Settings`
calls `RetriesBeforeSweep`, where the timeouts leave room for the runs that show it: terminal states are final (`RetryRace.AbsorbingIff`), the rows of parents follow those of
their children (`CascadeRace.InOrderIff`), rows on one resource agree (`CascadeRace.DuplicatesAgreeIff`), and failures
are reported to all ancestors (`CascadeRace.ReportedIff`).

## What the model takes as given

* Each transaction, and each polling of one operation, is one atomic step; there is one poller at a time; storage calls
  do not fail. Admission is atomic.
* An action returns by its timeout and timers fire on time; otherwise jobs take any time and have any outcome, including
  a panic, and goroutines can be lost at any moment. Whether a worker is free is left open at every step.
* An action may mark its operation for deletion once, and set or clear the reschedule flag.
* The position of a row in the table stands for its id and its paging sequence. Cleanup is modelled on its own.
* The operations of a tree carry one creation time and are polled later than that. The children of a resource are given
  by any acyclic function. Only the platform of the Service Manager itself is modelled.
* A job that undoes a create returns no object. Where such a job would mark a create as succeeded the code dereferences
  that missing object, and the panic handler records the failure (`operations/scheduler.go:596-607`); so does the model.
* Catalog ids are distinct within a fetched catalog, deleting an offering deletes its plans, and new ids are new. Ids are
  drawn in the order rows are created.
* A plan with instances cannot be deleted; which plans have instances, and shared ones, is given.
* Recipients of notifications depend only on the object; labels are left aside. What a platform does on MODIFIED with an
  object it does not hold is not part of the repository, so both readings are modelled: it takes the object over, or it
  changes only what it holds.

## Model

| member | source | states |
|---|---|---|
| `Scheduler.LastOperationUpTo` | operations/scheduler.go:216-248 | the operation found is on the resource and nothing newer is; none is found only if there is none |
| `CascadeUtils.GetSubOperations` | operations/cascade_utils.go:137-163 | the one-pass loop files each child under its list, as the specification over the table does |
| `CascadeUtils.SubOperationsPartition` | operations/cascade_utils.go:137-163 | the five lists partition the children: mitigation first, then by state; every count adds up |
| `CascadeUtils.CountsDecide` | operations/maintainer.go:437-485 | comparing counts decides exactly "all children succeeded, none in mitigation" and "some failed for good, the others succeeded" |
| `CascadeUtils.LatestOnTarget` | operations/cascade_utils.go:196-209 | the operation looked at for duplicates is on the same resource, category and tree, and none there is newer |
| `CascadeUtils.PrepareAggregatedErrorsArray` | operations/cascade_utils.go:227-252 | the loop splices child lists and wraps plain errors, in the order of the children |
| `Protocol.DecisionMeaning` | operations/maintainer.go:427-503 | what polling does to one operation, in terms of all its children and of the newest operation on its target: leave, settle with which state and errors, or launch |
| `CascadeTree.RecursiveGetAllLevels` | operations/cascade_utils.go:45-67 | the recursion with its appends yields the forest of the child function, for any acyclic one |
| `CascadeTree.AppendChild` | operations/cascade_utils.go:51-65 | one child and everything below it is appended to what was built |
| `CascadeTree.ForestIsOk` | operations/cascade_utils.go:45-67 | rows of the built forest point to rows on their parent resource, and each row has a child row for each child resource |
| `CascadeTree.BuiltTreeIsNew` | operations/cascade_utils.go:45-67 | the tree that is built is one the protocol starts from: every row hangs below a higher one, and rows on one resource have children on the same resources |
| `CascadeTree.TreeMirrors` | operations/cascade_utils.go:45-67 | two rows of a tree on one resource have children on the same resources |
| `CascadeTree.RowsOfTree` | operations/cascade_utils.go:165-188 | each row below the root is a pending delete of its resource with the root, force flag and time of the tree |
| `Maintainer.CascadePoller.ScheduleAsync` | operations/scheduler.go:143-214 | a job is started exactly when a worker is free and the preconditions admit the operation; the whole new state, the pool and the id supply |
| `Maintainer.CascadePoller.PollOperation` | operations/maintainer.go:427-503 | the loop body: the new state, and when the resource is skipped for the rest of the pass |
| `Maintainer.CascadePoller.PollListed` | operations/maintainer.go:427-434 | one listed operation takes one step of the reference pass, unless its resource is skipped |
| `Maintainer.CascadePoller.PollPendingCascadeOperations` | operations/maintainer.go:415-505 | the whole pass with its skip map equals the reference pass over the operations listed at its start |
| `Lifecycle.RunIsSound` | operations/scheduler.go:143-214 | in every run whose retries wake before the sweep, each goroutine works alone on a started operation that equals its copy, and is due before its row looks abandoned |
| `Lifecycle.EventForward` | operations/scheduler.go:467-626 | every event moves every operation forward only: pending to started or terminal, started to started or terminal, terminal not at all |
| `Lifecycle.TerminalIsAbsorbing` | operations/scheduler.go:659-674 | an operation that is SUCCEEDED or FAILED and out of mitigation is never written again |
| `RetryRace.AbsorbingIff` | operations/scheduler.go:531-569 | terminal states absorb in every run if and only if no retry can sleep longer than the action timeout; the long delay counts only where the reconciliation timeout lets it be chosen |
| `RetryRace.Race` | operations/scheduler.go:531-569 | otherwise a run whose last event writes a row that was terminal |
| `RetryRace.Overwrite` | operations/maintainer.go:508-549 | its plainest form: the sweep carries the deletion out, and the sleeping retry writes FAILED over SUCCEEDED |
| `RetryRace.DefaultsDoNotAbsorb` | operations/config.go:54-72 | the default settings are on the wrong side of that condition |
| `Mitigation.MitigatedNeverSucceeds` | operations/scheduler.go:573-626 | in every run and for every setting, a create or update that was ever in orphan mitigation never succeeds, whichever goroutines end the mitigation |
| `Mitigation.RunIsUndoing` | operations/maintainer.go:508-605 | the invariant behind it: goroutines on such an operation were all started to undo it, and an update has one at most |
| `Mitigation.AbandonedIsUnattended` | operations/maintainer.go:552-605 | a create or update that looks abandoned while in progress has no goroutine |
| `CascadeSafety.RunIsTidy` | operations/maintainer.go:415-505 | the invariant of the rows of all trees in every run whose retries wake before the sweep: started and succeeded operations have all children done, operations on one target agree |
| `CascadeDeletions.DeletionsInOrder` | operations/maintainer.go:415-505 | in every run and for every setting: once an operation of a tree has been admitted, or has succeeded, the deletion of every resource below it has been carried out, by an admitted operation of the tree on that resource |
| `CascadeDeletions.RunIsInSequence` | operations/maintainer.go:427-484 | the invariant behind it: what succeeded is gone, and below what was admitted or is gone everything is gone, for all rows on a resource alike |
| `CascadeDeletions.StartedWasAdmitted` | operations/scheduler.go:143-214 | an operation that is started, or has a goroutine, was admitted |
| `CascadeDeletions.SucceededWasDeleted` | operations/maintainer.go:460-484 | in every run and for every setting, behind every success on a real resource there is an admitted operation on it whose deletion was carried out; where retries come before the sweep its row says so |
| `CascadeSafety.ParentsAfterChildren` | operations/maintainer.go:415-505 | as the rows tell it: an operation of a tree that succeeded, was started or has a goroutine has every descendant SUCCEEDED and out of mitigation |
| `CascadeRace.InOrderIff` | operations/maintainer.go:508-549 | the rows of parents follow those of their children in every run if and only if no retry can sleep longer than the action timeout; it is about the recorded states, not about the deletions |
| `CascadeRace.OutOfOrder` | operations/scheduler.go:531-569 | otherwise a concrete run: a parent is deleted after its child, then the retry of the child writes FAILED over the row of the child |
| `CascadeSafety.DuplicatesAgree` | operations/cascade_utils.go:196-225 | terminal operations of one tree on one resource have the same state |
| `CascadeRace.DuplicatesAgreeIff` | operations/cascade_utils.go:196-225 | they do in every run if and only if no retry can sleep longer than the action timeout |
| `CascadeRace.Disagreement` | operations/cascade_utils.go:217-220 | otherwise a concrete run: two parents share a child, the second row on it copies SUCCEEDED, and the retry of the first ends it FAILED |
| `CascadeOnce.OneDeletionPerResource` | operations/cascade_utils.go:196-225 | for every setting: of two operations of a tree on one resource at most one is ever scheduled; one that was not is pending or terminal and has no goroutine; one that left PENDING is newer than one that has not |
| `CascadeOnce.RunIsBasic` | operations/maintainer.go:415-505 | the invariant behind it, over every run |
| `CascadeOnce.NewestPendingMeansNone` | operations/cascade_utils.go:196-225 | if the newest operation on a target is pending, none on it was ever scheduled |
| `CascadeProgress.PassMakesProgress` | operations/maintainer.go:415-505 | with something pending, nothing of a tree at work, no other deletion in the way and a free worker, one pass takes at least one operation out of PENDING and puts none back |
| `CascadeProgress.RoundsAreBounded` | operations/maintainer.go:415-505 | there are at most as many such rounds as pending operations |
| `CascadeProgress.CascadeTerminates` | operations/maintainer.go:415-505 | the same from any state any run has come to, whatever the jobs do in between |
| `DeleteExclusion.DeletionIsNewest` | operations/scheduler.go:250-366 | in every run without trees, and for every setting, a DELETE in progress and not in mitigation is the newest operation of its resource and the only such one; no new operation is admitted on the resource, and every goroutine that starts on it works for that DELETE, or for an older DELETE in mitigation while both are to be rescheduled; so no create or update is admitted or admitted again |
| `DeleteExclusion.ReadmittedIff` | operations/scheduler.go:318-366 | exactly when a retry, a continuation or a sweep gets another operation admitted on a resource that is being deleted |
| `DeleteExclusion.RescheduledBeside` | operations/scheduler.go:250-366 | a run in which it happens: isReschedule lifts the conflict between two DELETEs |
| `DeleteExclusion.RunIsExclusive` | operations/scheduler.go:659-710 | the invariant behind it: copies out of mitigation equal their row and have one goroutine; copies in mitigation are of rows no longer in progress |
| `DeleteExclusion.NothingReturnsToProgress` | operations/scheduler.go:467-626 | no event puts an operation in progress again |
| `RetryBound.ChainIsBounded` | operations/scheduler.go:531-569 | failure times spaced by the delays number at most floor(2A/s) + 1 + ceil(max(0, R-2A)/l) |
| `RetryChain.TriesAreBounded` | operations/scheduler.go:531-569 | in every run and for every setting, a goroutine that fails, sleeps and wakes again does so at most that often |
| `RetryChain.RunIsDated` | operations/scheduler.go:531-569 | the invariant behind it: all goroutines of one operation agree on when its mitigation began |
| `RetryChain.LeadFacts` | operations/scheduler.go:548-569 | the next attempt fails no sooner than the delay after the last one, and counts from the same time |
| `RetryTotal.RetriesAreBounded` | operations/scheduler.go:531-569 | in every run and for every setting, the retries of one operation over all its goroutines, sweeps and crashes are at most that many for its own goroutine and for each sweep the reconciliation timeout has room for; and that many altogether where retries come before the sweep |
| `RetryTotal.RunIsAccounted` | operations/maintainer.go:508-549 | the invariant behind it: retries so far, plus what the goroutines on the row and the sweeps to come can still cause, stay within the total |
| `RetryBound.RetriesOfOne` | operations/scheduler.go:531-569 | where retries come before the sweep all retries of an operation form one chain |
| `CascadeErrors.AggregateIsGathered` | operations/cascade_utils.go:227-252 | aggregating the lists stored at the children gives the recursive concatenation over the failed descendants |
| `CascadeErrors.RunIsRecorded` | operations/maintainer.go:485-503 | the invariant of stored errors over every run |
| `CascadeErrors.FailuresReportedOnce` | operations/cascade_utils.go:227-252 | in a tree that is not forced, a failed operation with a failed child lists every descendant that itself failed exactly once, with its own error and its immediate parent, and nothing else |
| `CascadeErrors.SourcesDistinct` | operations/cascade_utils.go:227-252 | no descendant contributes two entries |
| `CascadeErrors.SourcesMatch` | operations/cascade_utils.go:227-252 | entry by entry, the list names its source, its error and its immediate parent |
| `CascadeRace.ReportedIff` | operations/maintainer.go:485-503 | every failure is reported in every run if and only if no retry sleeps longer than the action timeout |
| `CascadeRace.Unreported` | operations/maintainer.go:485-503 | otherwise a concrete run that leaves two failed children and one entry |
| `CascadeRace.DefaultsFallShort` | operations/config.go:54-72 | with the default settings neither order of rows, agreement nor reporting is kept in every run |
| `Cleanup.OperationsTable.BatchDelete` | operations/maintainer.go:607-633 | with a positive batch size exactly the operations selected at the start go, in exactly ceil(count/batch) rounds; else nothing |
| `Cleanup.SelectionShrinks` | storage/sub_query.go:44-52 | after part of the selection is deleted, asking again selects exactly the rest, although "not the last" is asked of the smaller table |
| `Cleanup.NewestSurvive` | operations/maintainer.go:274-310 | the newest operation of every resource survives a cleanup, and no other becomes newest |
| `Cleanup.CleanupsKeepTheNewest` | operations/maintainer.go:183-195 | the same over any sequence of the three cleanups; what goes was eligible for one of them |
| `Cleanup.BatchCounts` | operations/maintainer.go:613-632 | one round is a full batch or all that is left, so one round fewer remains |
| `Division.CeilDivUnique` | operations/maintainer.go:614-614 | the number of rounds is the quotient rounded up |
| `Labels.RemoveInPlace` | pkg/query/update.go:69-76 | removal while ranging over the shared array: goes out of bounds exactly when the last value is to be removed and occurs earlier too; else skips the neighbour of each removed value |
| `Labels.RemovalMeaning` | pkg/query/update.go:69-76 | the same for every list: what the loop over shifting cells computes |
| `Labels.ShiftDown` | pkg/query/update.go:71-71 | append over the same array moves the tail down by one cell and leaves the last cell twice |
| `Labels.SkippingRemovesAllIff` | pkg/query/update.go:69-76 | all occurrences are removed if and only if no two are neighbours |
| `Labels.DistinctNeverAdjacent` | pkg/query/update.go:69-76 | duplicate-free lists are never affected |
| `Labels.ApplyIsFold` | pkg/query/update.go:43-83 | for duplicate-free lists any sequence of changes equals the fold over key and value pairs, never goes out of bounds, keeps lists duplicate-free, and drops a key with its last value |
| `Labels.ApplyLabelChanges` | pkg/query/update.go:43-83 | the imperative loops over slices that share arrays equal the specification on values, panics included |
| `Labels.AddInPlace` | pkg/query/update.go:85-97 | a value is added once, in place or in a new array, without touching the other keys |
| `Labels.RemoveFrom` | pkg/query/update.go:68-77 | one value is removed from one key, and the key with its last value |
| `PageToken.Base64RoundTrip` | api/base_controller.go:733-736 | decoding undoes the encoding of section 4 of RFC 4648 for all byte strings |
| `PageToken.ParseFormat` | api/base_controller.go:659-691 | parsing undoes decimal formatting up to the largest 64-bit integer |
| `PageToken.TokenRoundTrip` | api/base_controller.go:659-691 | a token reads as the paging sequence it was made for, and is never the empty token |
| `Paging.PageFromObjectList` | api/base_controller.go:738-755 | the page is the first limit objects, with a token exactly if there are more |
| `Paging.ListObjects` | api/base_controller.go:403-466 | the answer to any limit and token: bad request, count only, or the page after the token |
| `Paging.PageAt` | api/base_controller.go:403-466 | after the first k rows comes the page of the next limit rows and the place to go on |
| `Paging.PagesListEverything` | api/base_controller.go:403-466 | following tokens lists every object once, in order, in exactly max(1, ceil(n/limit)) requests, for every limit |
| `Paging.RequestsAre` | api/base_controller.go:403-466 | when the number of requests is reached |
| `PagingChanges.ListsWhatStays` | api/base_controller.go:403-466 | while objects come and go between the requests, objects are listed in order and so none twice, only such as were there, and every object that was there at all requests is listed once the last page has come |
| `ListClient.ListIterator.Next` | pkg/util/list.go:36-83 | a finished or refused iteration changes nothing; otherwise the next token and whether there is more |
| `ListClient.ListAll` | pkg/util/list.go:85-108 | the client loop ends with every object once, in order, after that many requests |
| `ListClient.OneRequest` | pkg/util/list.go:85-108 | no request of the loop is refused, and it ends with the page that has no token |
| `InterceptorOrder.FindName` | storage/interceptable_repository.go:954-962 | the loop finds the first position of a name |
| `InterceptorOrder.InsertName` | storage/interceptable_repository.go:936-952 | append and copy insert before, after or at the end; a missing reference panics |
| `InterceptorOrder.InterceptorRegistry.Validate` | storage/interceptable_repository.go:809-836 | accepted exactly if the name is new and both references are registered |
| `InterceptorOrder.InterceptorRegistry.Add` | storage/interceptable_repository.go:420-455 | when a registration panics, and what it leaves otherwise |
| `InterceptorOrder.RegisterSucceedsIff` | storage/interceptable_repository.go:420-529 | exactly when a registration goes through |
| `InterceptorOrder.SetupIsSound` | storage/interceptable_repository.go:420-529 | after any registrations both lists are duplicate-free |
| `InterceptorOrder.NeverReordered` | storage/interceptable_repository.go:936-952 | names once in order stay in that order |
| `InterceptorOrder.RequestsHoldForever` | storage/interceptable_repository.go:936-952 | every Before and After request holds in every later state |
| `InterceptorOrder.Compose` | storage/interceptors_create.go:92-114 | rewrapping from last to first runs the present interceptors in list order around the call |
| `InterceptorOrder.PresentOrder` | storage/interceptors_create.go:122-163 | leaving out absent interceptors keeps order and uniqueness |
| `InterceptorOrder.ChainHonoursRequests` | storage/interceptors_create.go:92-114 | in any later chain each present interceptor runs once, outside those it was put before and inside those it was put after |
| `InterceptorGuard.ScopedRepository.Perform` | storage/interceptable_repository.go:129-403 | for arbitrary finite interceptor bodies that call back, every verb terminates, leaves the three maps as at entry on success and on error, and equals the reference execution |
| `InterceptorGuard.ScopedRepository.CreateOnTx` | storage/interceptable_repository.go:129-171 | the create path: a chain is taken out, run and put back |
| `InterceptorGuard.ScopedRepository.UpdateOnTx` | storage/interceptable_repository.go:305-403 | the update and label paths, which read the object first |
| `InterceptorGuard.ScopedRepository.DeleteOnTx` | storage/interceptable_repository.go:223-303 | the delete paths, which read the objects only if a chain runs |
| `InterceptorGuard.ScopedRepository.Handle` | storage/interceptors_create.go:107-114 | a handler is the rest of the chain around the storage call |
| `InterceptorGuard.ScopedRepository.Execute` | storage/interceptable_repository.go:129-403 | an interceptor body, with its calls of the next handler and of the repository |
| `InterceptorGuard.NoChainActiveTwice` | storage/interceptable_repository.go:129-403 | at every moment of every call no (verb, type) chain is active twice, chains are left in reverse order, and none is active at the end |
| `Notifications.StringsIntersection` | pkg/util/slice/strings.go:24-36 | the common elements, in the order of the second list |
| `Notifications.StringsDistinct` | pkg/util/slice/strings.go:80-95 | the elements not in the second list, and its surplus tail |
| `Notifications.PlatformsDetermined` | storage/interceptors/notifications_interceptor.go:277-283 | who stays, who is new and who is gone, in spite of the surplus tail |
| `Notifications.NotificationsInterceptor.OnTxCreate` | storage/interceptors/notifications_interceptor.go:41-77 | what is appended for a create |
| `Notifications.NotificationsInterceptor.OnTxUpdate` | storage/interceptors/notifications_interceptor.go:79-184 | what is appended for an update: deleted, created and modified, or created on becoming ready |
| `Notifications.NotificationsInterceptor.OnTxDelete` | storage/interceptors/notifications_interceptor.go:186-228 | what is appended for deleted objects |
| `Notifications.ReplayUpdate` | storage/interceptors/notifications_interceptor.go:79-184 | replaying the notifications of an update shows the new object to its recipients and takes it from the others, except that a platform that changes on MODIFIED only what it holds loses it if it is also sent DELETED |
| `Notifications.ReplayDelete` | storage/interceptors/notifications_interceptor.go:186-228 | replaying those of a delete takes the objects away |
| `Notifications.StepKeepsRightIff` | storage/interceptors/notifications_interceptor.go:41-228 | for both readings of MODIFIED, a step keeps the view of a platform right if and only if it takes none of its objects from ready to not ready and, for the strict reading, sends it no DELETED between CREATED and MODIFIED, which the two lists of recipients tell |
| `Notifications.ReplayIsRightIff` | storage/interceptors/notifications_interceptor.go:41-228 | over every run and for both readings, a platform holds exactly the ready objects that are for it, if and only if no step so far was such a one |
| `Notifications.FromAllToOne` | storage/interceptors/visibility_notifications_interceptor.go:14-23 | the input that separates the readings: an object for all platforms becomes one for a single platform |
| `Visibilities.VisibilityStore.Resync` | storage/interceptors/broker_public_plans_interceptor.go:115-157 | every plan meets its target with no row touched without need, other plans keep their rows, and where all targets are met nothing is written |
| `Visibilities.VisibilityStore.ResyncWithSupportedPlatforms` | storage/interceptors/broker_public_plans_interceptor.go:219-255 | a restricted plan ends with visibilities of supported platforms only: label-less and single where the plan is public or the platform tenant-scoped, labelled elsewhere; a public one has exactly one per supported platform |
| `Visibilities.VisibilityStore.ResyncAllPlatforms` | storage/interceptors/broker_public_plans_interceptor.go:184-217 | a public plan on all platforms ends with platform-less visibilities only, at least one; a plan that is not public keeps no platform-less one |
| `Visibilities.VisibilityStore.VisitAll` | storage/interceptors/broker_public_plans_interceptor.go:219-245 | the loop that deletes visibilities and takes platforms off the map while scanning |
| `Visibilities.VisibilityStore.MakeMissing` | storage/interceptors/broker_public_plans_interceptor.go:247-254 | a visibility is made for exactly the platforms left on the map |
| `Visibilities.SecondTimeNothing` | storage/interceptors/broker_public_plans_interceptor.go:115-264 | idempotence: a plan that meets its target is left as it is |
| `CatalogUpdate.CatalogStore.ExistingOfferings` | storage/interceptors/broker_update_catalog_interceptor.go:302-314 | the map of stored offerings by catalog id holds exactly the offerings of the broker |
| `CatalogUpdate.CatalogStore.UpdateOfferings` | storage/interceptors/broker_update_catalog_interceptor.go:106-147 | the loop with its shrinking map: survivors are overwritten in place, the rest listed, ids assigned |
| `CatalogUpdate.CatalogStore.DeleteOfferings` | storage/interceptors/broker_update_catalog_interceptor.go:149-154 | the offerings left in the map go, with their plans |
| `CatalogUpdate.CatalogStore.ResyncOfferings` | storage/interceptors/broker_update_catalog_interceptor.go:106-160 | the stored offerings are replaced by those of the catalog: a bijection by catalog id, survivors keep id and creation time |
| `CatalogPlans.FindPlan` | storage/interceptors/broker_update_catalog_interceptor.go:175-185 | the stored plan with the catalog id, and the others |
| `CatalogPlans.UpdatePlan` | storage/interceptors/broker_update_catalog_interceptor.go:171-216 | one plan is overwritten or listed for creation; refused exactly if a plan with shared instances would lose sharing |
| `CatalogPlans.UpdatePlans` | storage/interceptors/broker_update_catalog_interceptor.go:164-218 | the nested loops, in any order of the services |
| `CatalogPlans.DeletePlans` | storage/interceptors/broker_update_catalog_interceptor.go:220-231 | exactly the plans left in the map go; missing ones are no error |
| `CatalogPlans.CreatePlans` | storage/interceptors/broker_update_catalog_interceptor.go:233-237 | each listed plan is stored under a new id |
| `CatalogPlans.ResyncPlans` | storage/interceptors/broker_update_catalog_interceptor.go:163-237 | the stored plans are replaced by those of the catalog, each under the stored id of its offering |
| `CatalogTypes.StepsReplace` | storage/interceptors/broker_update_catalog_interceptor.go:106-237 | updating, deleting and creating in these steps is replacing |
| `CatalogTypes.ReplacedAgree` | storage/interceptors/broker_update_catalog_interceptor.go:106-237 | replacing leaves nothing open but new ids: any two results agree, so the order of iteration does not matter |
| `CatalogBroker.ExistingPlans` | storage/interceptors/broker_update_catalog_interceptor.go:302-314 | the stored plans by the catalog id of their offering |
| `CatalogBroker.UpdateCatalog` | storage/interceptors/broker_update_catalog_interceptor.go:73-244 | a catalog update stores exactly the new catalog, or fails and changes nothing; it fails exactly if a plan with shared instances would lose sharing or a plan with instances would have to go |
| `CatalogBroker.GoneIff` | storage/postgres/migrations/20191118203400_service_instances.up.sql:7-7 | the stored plans that go are exactly those of the broker that the new catalog has no place for |
| `CatalogBroker.CreateCatalog` | storage/interceptors/broker_create_catalog_interceptor.go:65-87 | a new broker stores exactly its catalog |
| `CatalogFetch.Prepare` | storage/interceptors/broker_create_catalog_interceptor.go:103-181 | a fetched catalog is refused exactly if something is invalid, reserved or shared without being bindable; else each service with a shareable plan gets one reference plan, last |
| `CatalogFetch.PreparePlans` | storage/interceptors/broker_create_catalog_interceptor.go:125-157 | the loop over the plans of a service |
| `CatalogFetch.ReuseReferences` | storage/interceptors/broker_update_catalog_interceptor.go:249-280 | the new reference plan takes id and catalog id of the stored one of the same offering |
| `Brokers.UpdateBroker` | storage/interceptors/broker_update_catalog_interceptor.go:61-244 | a broker update goes through exactly if the catalog is acceptable, no sharing is lost and no plan with instances would go, and is then a step of the run below; else nothing stored changes |
| `Brokers.CreateBroker` | storage/interceptors/broker_create_catalog_interceptor.go:54-87 | a broker create goes through exactly if the catalog is acceptable |
| `ReferencePlans.StepKeepsReferences` | storage/interceptors/broker_update_catalog_interceptor.go:249-280 | every create and update keeps the references right |
| `ReferencePlans.ReferencesAlwaysRight` | storage/interceptors/broker_create_catalog_interceptor.go:158-176 | over every run each offering has exactly one reference plan if some plan supports sharing, and none otherwise |
| `ReferencePlans.ReferenceLasts` | storage/interceptors/broker_update_catalog_interceptor.go:249-280 | that plan keeps its stored id and catalog id for as long as successive catalogs keep a shareable plan in the offering |

## Left out

- TerminalIsAbsorbing: requires that no delay that can be chosen exceeds the action timeout, because it is false otherwise; AbsorbingIff gives the exact condition, and leaves open only the settings where a delay exceeds the action timeout by the smallest unit and the reconciliation timeout is over when both retry and sweep come.
- ParentsAfterChildren: the same condition; InOrderIff shows that it is exact, where the two timeouts leave room for three actions. DeletionsInOrder needs no condition.
- DuplicatesAgree: the same condition; DuplicatesAgreeIff shows that it is exact, where the two timeouts leave room for three actions.
- FailuresReportedOnce: the same condition; ReportedIff shows that it is exact, where the two timeouts leave room for three actions.
- RetriesOfOne: the same condition; RetriesAreBounded needs none.
- ApplyLabelChanges: the merged labels only, not the lists of added and removed labels that the function also returns; the value lists of different keys do not share arrays.
- BatchDelete: the quotient is rounded up exactly, where the code divides 64-bit floating-point numbers.
- InsertName: name lists are values; the sharing of backing arrays between lists is not modelled.
- ReplayIsRightIff: contents of notifications other than the object, and labels, are not modelled.
- UpdateCatalog: the raw catalog JSON kept with the broker and the updated-at times of offerings and plans are not modelled.
- Prepare: of the validation of offerings and plans only the required texts are modelled, not the metadata and schema documents.
- PreparePlans: the same.
- PollUpdateCascadeOperations, CleanupFinishedCascadeOperations and CleanupResourcelessOperations: the first settles roots of update trees by the same counts, the others delete rows by further criteria; they would add easy members.
- Ready flags and transitive resources: side effects of ending a job on other tables, of which only the panic named above matters to operations.
- The broker proxy's store plugin: one-branch mappings from broker answers to operation states.
- HTTP handling, authentication, encryption, SQL text, the query language, web sockets, settings and health: plumbing around libraries.
