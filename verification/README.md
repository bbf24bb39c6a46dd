# Verified models of the agent framework's stateful core

This project models the parts of the framework where a mistake is hardest to see by reading:
a concurrent workspace cache, an eager scheduler for graph nodes, the governance of evolving
skills, the deep clone of invocation state, and six smaller mechanisms that each rest on one
delicate promise. Every model follows the branches of the Go code and is proved against what
the code, its comments or its documentation promise.

Two shapes recur.

* A **machine**: a `World`, a set of `Event`s with an `Enabled` predicate, and a function
  `Apply`. A run is any sequence of enabled events, so a lemma over runs speaks of every
  interleaving, failure and nondeterministic answer. One lock section, one channel operation
  or one backend probe is one event.
* A **class** with the fields of the Go struct, whose methods change them in place and are
  proved to compute the specification functions that the machine is made of. `DagLoop` goes
  one step further and carries the run it has made: its `Run` method terminates, and its
  steps are a run of the machine, so all theorems about runs apply to it.

| files | subject |
|---|---|
| `WorkspaceCache`, `RegistryProtocol`, `CacheTheorems` | single-flight workspace registry |
| `DagLoopState`, `DagScheduler`, `DagInvariant`, `DagTheorems`, `DagPlanning`, `DagCauses`, `DagLoop` | eager DAG scheduler |
| `SkillRevisions`, `GovernanceRuns`, `GovernanceFaults`, `GovernanceService` | revisions, approval, publication, rollback |
| `ViewHeap`, `ViewMemo`, `ViewClone` | cycle-safe clone of invocation state |
| `KeyedLock` | reference-counted keyed locks |
| `StreamHub`, `StreamRuns` | byte streams between graph nodes |
| `Reconcile`, `ReconcileTheorems`, `ReconcileTargets` | reconciliation with the skill library |
| `JsonScanner` | first JSON object in a text |
| `InterruptReplay` | interrupt and resume of a node |
| `PassAtK` | the pass@k estimate |
| `Prelude` | Option and Result |

## Where the code does less than one might expect

Each of these is a proved statement about the code as it is.

* A resumed execution without recorded next nodes plans its first tasks only after the ready
  queue was served, and then waits with nothing in flight until it is cancelled. The first
  wait is productive if and only if `seed` queued a task (`FirstWaitMakesProgressIff`,
  `ResumedRunStalls`).
* Fan-out tasks issued since the last planning round began are still pending when the
  scheduler pauses for an interrupt, whether they were issued before or after draining began.
  They are not recorded, unless a trigger happens to list their node once (`PendingIsIssued`,
  `FanOutCoveredIff`, `FanOutCanBeDropped`).
* `Rollback` writes back the revisions it changed only when the pointer update fails, and it
  never takes back the published body. If writing the target fails after the active revision
  was archived, the pointer stays on an archived revision; if the pointer update fails and
  every restoring write works, the records are as before and agents still read the target's
  body. `RollbackRestoresIff` says exactly when the records are as before and
  `RollbackSurvivesIff` exactly when body and records still agree; `RollbackCanStrandPointer`
  and `UndoneRollbackShowsTheTarget` are concrete inputs.
* `Decide` compensates nothing, and the worker's publication goes on after failed writes.
  `DecideSurvivesIff` and `PublishSurvivesIff` say exactly which failures leave the skill
  consistent; `DecideCanBreakTheSkill` is a concrete input.
* A JSON object is found in its own place if and only if no `{` precedes it
  (`FoundInPlaceIff`); with one, the extraction can yield nothing at all
  (`StrayBraceHidesTheObject`).
* A stream's end that races with a write and a close can be reported before an accepted byte
  was delivered. A read that reports the end has delivered everything if and only if no write
  was accepted while that read was under way (`EndIsCompleteIff`, `RacingEndLosesBytes`).

The comments above the word-overlap rule (evolution/reconcile.go:628-637) speak of 60% of the
words and of exact overlap for short names; the code asks for half of the words and for two
common ones, which half of the words already implies. The model follows the code
(`BestOverlapWins`).

## Model

| member | source | states |
|---|---|---|
| CacheTheorems.AcquireLinearizable | codeexecutor/registry.go:88-217 | In every interleaving a successful acquire, by whichever of its three return paths, returns an entry that was the cached binding of its id at some step between the call and the return |
| CacheTheorems.SingleFlightAlways | codeexecutor/registry.go:94-157 | Two creations of one id that have not committed are the same creation |
| CacheTheorems.NoReinstallation | codeexecutor/registry.go:127-139 | An entry seen cached at two steps was cached at every step between, so comparing `latest` with `entry` is free of the ABA problem |
| CacheTheorems.TokensIncrease | codeexecutor/registry.go:199-216 | Every installed token is non-zero, does not wrap, and is larger than the token of any entry cached earlier under any id |
| CacheTheorems.InvalidateIsExact | codeexecutor/registry.go:242-254 | Invalidating a handle obtained from an acquire removes the binding exactly when that very entry is still cached, and touches nothing else |
| CacheTheorems.BindingsChangeOnly | codeexecutor/registry.go:159-217 | The bindings change if and only if the step is a successful commit or an invalidation naming a cached entry: failed probes, creations and cancellations leave the cache alone |
| CacheTheorems.EntriesAreFresh | codeexecutor/registry.go:159-217 | If instance ids are never reused, the backend ran the instance an entry records at every step from the beginning to the end of that entry's creation |
| CacheTheorems.ValidatedHitIsCurrent | codeexecutor/registry.go:119-139 | A hit that was validated by a probe matched the backend's instance at some step during the call |
| CacheTheorems.AwareReturnsCurrent | codeexecutor/registry.go:94-147 | Whatever an instance-aware acquire returns records an instance that the backend ran at some step of the call, or was installed by a commit during the call; it never hands out a stale entry |
| CacheTheorems.StaleEntryIsReplaced | codeexecutor/registry.go:127-147 | When a probe saw another instance than the still cached entry records, and nobody is creating the workspace, the acquire begins a creation and waits for it |
| CacheTheorems.CreationsAreNeeded | codeexecutor/registry.go:94-157 | A creation begins only for an id that nobody is creating, and that has no entry or one whose instance an aware call has seen replaced |
| CacheTheorems.FirstLookAnswersIff | codeexecutor/registry.go:95-104 | A legacy call is answered from the cache at once, even when cancelled, an aware call never; a cancelled call that is not answered fails and begins nothing |
| CacheTheorems.CachedEntriesAreProbed | codeexecutor/registry.go:95-119 | An aware call that finds an entry and nobody creating goes on to probe the backend about exactly that entry |
| CacheTheorems.ProbeDecides | codeexecutor/registry.go:127-140 | After a probe a changed binding sends the call round again, and a still cached entry is returned exactly when its instance is the one seen |
| CacheTheorems.CreationsAreJoined | codeexecutor/registry.go:105-131 | A call that is not answered or cancelled first waits for the creation of its id that is under way |
| CacheTheorems.FailuresAreExplained | codeexecutor/registry.go:94-232 | A call fails only because it was cancelled, its probe failed or was empty, or the creation it waited for failed with the very error it returns |
| CacheTheorems.CreationsSettle | codeexecutor/registry.go:159-197 | What ends a creation and with which result: an unanswered or empty probe, a failed creation, a changed instance, or its workspace |
| CacheTheorems.CommitsPublish | codeexecutor/registry.go:199-217 | A commit publishes the creation's own failure, exhausted tokens, or an entry under the next token, which alone is installed, and ends the creation |
| CacheTheorems.RetriesBounded | codeexecutor/registry.go:94-147 | Retries of one acquire never exceed the number of steps that rebound its id during the call |
| CacheTheorems.HistoryIsFaithful | codeexecutor/registry.go:88-217 | The recorded bindings and instances are those the run really showed at each step |
| CacheTheorems.ReplacementsHappen | codeexecutor/workspace.go:127-129 | The backend runs the instance it was last replaced by, and no other event changes it |
| CacheTheorems.StartIsTheCall | codeexecutor/registry.go:88-94 | The recorded start of an acquire is the step right after its own call |
| WorkspaceCache.WorkspaceRegistry.LookupLocked | codeexecutor/registry.go:95-117 | The first lock section gives the specified verdict and changes the cache only by registering a new call |
| WorkspaceCache.WorkspaceRegistry.RevalidateLocked | codeexecutor/registry.go:127-143 | The second lock section joins, retries, hits or launches as specified, and otherwise leaves the cache alone |
| WorkspaceCache.WorkspaceRegistry.NewCreateCallLocked | codeexecutor/registry.go:150-157 | A new, unfinished call is registered under the id |
| WorkspaceCache.WorkspaceRegistry.CommitLocked | codeexecutor/registry.go:199-217 | The commit installs under the next token or reports the error, ends the call, and fails when tokens are exhausted |
| WorkspaceCache.WorkspaceRegistry.Invalidate | codeexecutor/registry.go:242-254 | Reports removal exactly for a handle of this registry whose token is cached under its id, and removes only that |
| DagTheorems.LaunchesExclusively | graph/executor_dag.go:234-304 | Whenever a task is launched it is the head of the ready queue, its node has no goroutine, a slot is free and the loop is not draining; never more than maxConcurrency slots are held |
| DagTheorems.LaunchesBudgeted | graph/executor_dag.go:274-281 | At most max(0, maxSteps - startStep) tasks are ever launched, under consecutive step numbers from startStep on |
| DagTheorems.ResultsBounded | graph/executor_dag.go:335-359 | Results handled plus tasks in flight never exceed the step budget, whatever the graph, its cycles and the workers do |
| DagTheorems.DrainIsFinal | graph/executor_dag.go:361-392 | From the first draining step on, nothing is launched and none of the fields that fix the outcome changes |
| DagTheorems.FirstCauseWins | graph/executor_dag.go:361-469 | The outcome a run returns is the one that started draining, whatever fails, is cancelled or is interrupted later |
| DagCauses.FirstStopDecides | graph/executor_dag.go:234-469 | The first event that has something to stop the loop for fixes how the run ends: a raised, static, forced or requested interrupt pauses it with that cause, a failed task or a cancellation aborts it with that error, and a used-up step budget ends it |
| DagCauses.StepStopsIff | graph/executor_dag.go:234-469 | A step makes the loop drain if and only if its event is one of those, with the cause the event is about |
| DagCauses.RaisedInterruptPauses | graph/executor_dag.go:417-440 | An interrupt that a task raised first makes every return of the run a pause with that task as its cause |
| DagCauses.CompletesIffUnstopped | graph/executor_dag.go:180-205 | A run returns a normal completion if and only if no event had anything to stop it for |
| DagCauses.FirstStop | graph/executor_dag.go:361-469 | A run that was stopped has a first stopping event, before which it was not draining |
| DagCauses.RequestIsNotedIff | graph/executor_dag.go:377-384 | A pause requested from outside is noted exactly when there is a request and the loop is not draining, and is never forgotten |
| DagCauses.RequestIsHonoured | graph/executor_dag.go:214-220 | Once a request is noted no task is launched any more |
| DagCauses.RequestedRunPauses | graph/executor_dag.go:180-205 | A run with a request does not complete: it pauses for the request, unless something else stopped it before |
| DagCauses.FirstStopIsKept | graph/executor_dag.go:361-469 | Each stopping step keeps the error, the limit or the interrupt that came first, whenever it is made |
| DagCauses.SnapshotListsAllTasks | graph/executor_dag.go:552-597 | In any state of the loop the snapshot lists a real node once for each of its ready, waiting and rerun tasks, or as often as it is triggered when it has none |
| DagCauses.BlankLandsNothing | graph/executor_dag.go:335-346 | The result of a blank node frees no node and queues nothing |
| DagTheorems.ReturnsQuiescent | graph/executor_dag.go:180-205 | On return nothing is in flight or waiting, every launched task's result was handled, and no goroutine can take a step any more |
| DagTheorems.CompletionIsTotal | graph/executor_dag.go:180-205 | On normal completion every task ever queued has succeeded, and no trigger channel or fan-out task is left, although the test never looks at `waiting` |
| DagTheorems.NoLostWork | graph/executor_dag.go:531-597 | At an interrupt, tasks queued for a real node are exactly its successes, the raiser, and the outstanding ones, and the recorded next nodes list the outstanding ones with multiplicity |
| DagTheorems.EveryTaskCovered | graph/executor_dag.go:417-469 | The same task by task: succeeded, raised the interrupt, or its node is among the recorded next nodes |
| DagTheorems.PauseIsExact | graph/executor_dag.go:552-597 | A real node is recorded once per outstanding task, or once if it is only triggered, and never more often |
| DagPlanning.PlanningRound | graph/executor_dag.go:685-730 | However the tasks interfere, a planning round visits every trigger channel exactly once and queues the fan-out tasks pending at its beginning, then one task for each creatable node triggered by a channel that was available at its visit |
| DagPlanning.RoundBegan | graph/executor_dag.go:685-730 | A loop that is planning at some step is in a round with a beginning, so PlanningRound speaks of every round that ends |
| DagPlanning.PendingIsIssued | graph/executor_dag.go:685-730 | The pending fan-out tasks are exactly those issued since the last planning round began |
| DagPlanning.DrainingPlansNothing | graph/executor_dag.go:306-311 | No planning round begins while the loop drains, so nothing pending then is ever queued |
| DagPlanning.FanOutCoveredIff | graph/executor_dag.go:552-597 | At an interrupt the fan-out tasks issued since the last planning round are covered if and only if each node has none of them, or has one, nothing outstanding and an available trigger |
| DagPlanning.FanOutCanBeDropped | graph/executor_dag.go:552-597 | A concrete run in which a task fans out before its interrupt-after fires, and which pauses with the fan-out task pending and no next node recorded |
| DagPlanning.SeedsAre | graph/executor_dag.go:137-178 | A run starts with one task for each recorded next node that the graph has, as often as it is recorded, or with none recorded with nothing when resumed and else with the entry node |
| DagPlanning.ResultsFit | graph/executor_dag.go:283-304 | The results channel never holds more messages than maxConcurrency |
| DagTheorems.NeverWaitsIdle | graph/executor_dag.go:306-333 | Once seed has queued a task, the loop never waits with nothing in flight |
| DagTheorems.NeverStuck | graph/executor_dag.go:123-135 | Until a seeded run returns, some step other than a cancellation is possible: semaphore, result channel and loop never deadlock |
| DagTheorems.FirstWaitMakesProgressIff | graph/executor_dag.go:137-158 | The first wait has a task in flight if and only if seed queued one; otherwise only a cancellation can wake the loop |
| DagTheorems.ResumedRunStalls | graph/executor_dag.go:137-158 | A concrete resumed run that waits with nothing in flight and a planned task in its queue |
| DagLoopState.NoPlanMeansStopping | graph/executor_dag.go:335-359 | When a result is not followed by planning, the loop is draining or a pause was requested |
| DagLoopObject.DagLoop.Run | graph/executor_dag.go:123-135 | The loop terminates when every task finishes, with any finite number of wake-ups by the end of the context, of which a loop that was not seeded needs one; its steps extend the recorded run, which ends in the outcome returned |
| DagLoopObject.DagLoop.StartDraining | graph/executor_dag.go:361-367 | Refines the specified draining step in place; only the first error is kept |
| DagLoopObject.DagLoop.StartDrainingMaxStep | graph/executor_dag.go:369-375 | Refines the step-limit draining step; an earlier cause is kept |
| DagLoopObject.DagLoop.StartDrainingInterrupt | graph/executor_dag.go:454-469 | Refines the interrupt draining step; only the first interrupt is kept |
| DagLoopObject.DagLoop.RecordRerunNode | graph/executor_dag.go:442-452 | A node is recorded for rerun exactly when an interrupt is pending and the node is real |
| DagLoopObject.DagLoop.HandleTaskError | graph/executor_dag.go:417-440 | Refines the choice between recording a rerun, a forced interrupt, the task's own interrupt and a plain error |
| DagLoopObject.DagLoop.MaybeRequestExternalInterrupt | graph/executor_dag.go:377-384 | Is the machine's step that polls for an external request |
| DagLoopObject.DagLoop.StartTask | graph/executor_dag.go:234-259 | Refines the specified start of the head task: skipped, queued behind its node, refused or launched |
| DagLoopObject.DagLoop.ConsumeReadyHead | graph/executor_dag.go:222-232 | Is one start step of the machine; the queue shrinks exactly when the head was consumed |
| DagLoopObject.DagLoop.LaunchTask | graph/executor_dag.go:283-304 | Takes one slot and starts one goroutine for the task under its step number |
| DagLoopObject.DagLoop.StartReadyTasks | graph/executor_dag.go:214-220 | Terminates; what it does extends the recorded run of the machine, without giving back any of the step budget |
| DagLoopObject.DagLoop.PlanIfIdle | graph/executor_dag.go:306-311 | Leaves the loop's fields alone when it is stopping or has tasks ready, and otherwise ends with the end of a planning round; the recorded run goes on either way |
| DagLoopObject.DagLoop.QueuePlannedTasks | graph/executor_dag.go:313-317 | Terminates and extends the recorded run up to the end of the round; the ready queue gains the fan-out tasks taken over and then one task per node of the order with which the round ends, which PlanningRound characterizes |
| DagLoopObject.DagLoop.SnapshotNextNodes | graph/executor_dag.go:552-597 | Computes the specified list of ready, waiting, rerun and triggered nodes |
| DagLoopObject.DagLoop.TryFinalize | graph/executor_dag.go:180-205 | Is the machine's finalize step: returns with its outcome or goes to wait |
| DagLoopObject.DagLoop.HandleTaskResult | graph/executor_dag.go:335-359 | Refines the landing of a result and says whether planning follows |
| DagLoopObject.DagLoop.AwaitResult | graph/executor_dag.go:319-333 | With a task in flight a result always arrives, whatever the goroutines do meanwhile, and the loop's own fields stay as they are |
| DagLoopObject.DagLoop.WaitForEvent | graph/executor_dag.go:319-333 | Either a result is handled, which uses up a flight, or the end of the context is, after which the loop drains; with nothing in flight only the latter |
| DagLoopObject.DagLoop.HandleContextDone | graph/executor_dag.go:401-415 | Is the machine's cancellation step, after which the loop drains |
| GovernanceRuns.PointerNamesTheActiveRevision | evolution/approval_service.go:107-232 | In every reachable world the active revisions other than tombstones are exactly the one the pointer has, and the published body is that revision's spec, or absent with an empty pointer |
| GovernanceRuns.NoLostUpdate | evolution/submission.go:257-318 | Two promoted updates with one parent have, right before the second, a rollback or deletion that put the pointer back on that parent |
| GovernanceRuns.UpdateLeavesItsParent | evolution/submission.go:296-318 | In every run each promotion of an update moves the pointer from exactly the revision recorded as its parent to the update |
| GovernanceRuns.MovesAreThePointer | evolution/worker.go:935-1056 | The recorded moves are the whole history of the pointer: each is a promotion or restoration of a stored revision, which is then active |
| GovernanceRuns.RevisionsMoveForward | evolution/approval_service.go:107-232 | Once written a revision keeps id, parent, action and spec, and its status moves only along the allowed arrows, from archived to active only by a rollback |
| GovernanceRuns.RejectedIsFinal | evolution/approval_service.go:118-196 | Over any stretch of a run a rejected revision stays rejected and no revision's text changes |
| GovernanceRuns.ReactivationNeedsRollback | evolution/approval_service.go:295-385 | An archived revision that is no longer archived later was made active by a rollback in between |
| GovernanceRuns.DecisionIsRecorded | evolution/approval_service.go:118-167 | The human decision is recorded as it was made, a stale approval as a rejection; approval of an update is refused as stale exactly when the pointer has left its parent |
| GovernanceRuns.TombstonesHaveNoBody | evolution/worker.go:722-748 | In every reachable world exactly the deletions are without a body |
| GovernanceFaults.DecideSurvivesIff | evolution/approval_service.go:107-232 | A failed decision leaves the skill consistent if and only if a condition on state and faults holds that is known before the call; every other outcome keeps it consistent, a stale rejection that could not be written included |
| GovernanceFaults.DecideCanBreakTheSkill | evolution/approval_service.go:198-232 | A concrete approval whose pointer update fails, leaving the new body published and the pointer on an archived revision |
| GovernanceFaults.UnwrittenDecisionIsNone | evolution/approval_service.go:118-196 | When the revision cannot be written no decision is made, and a rejection, stale or not, changes nothing at all |
| GovernanceFaults.NothingToPublish | evolution/approval_service.go:198-232 | A revision without a body that is no deletion leaves the published body alone |
| GovernanceFaults.NothingToArchive | evolution/promotion.go:86-125 | Archiving leaves a missing or already archived revision alone and makes no write that could fail |
| GovernanceFaults.RollbackSurvivesIff | evolution/approval_service.go:312-427 | A failed rollback leaves the skill consistent, published body included, if and only if it failed before publishing, or the target's body was live and nothing was active, nothing was demoted, or all needed restoring writes succeeded; every other outcome keeps it consistent |
| GovernanceFaults.UndoneRollbackShowsTheTarget | evolution/approval_service.go:337-378 | A concrete failed rollback after which the records are as before and the body is the target's |
| GovernanceFaults.PublishSurvivesIff | evolution/worker.go:935-1014 | The worker's publication, with any storage calls failing, leaves the skill consistent if and only if a condition on state and faults holds that is known before the call |
| GovernanceFaults.UnwrittenRejectionIsNone | evolution/worker.go:1016-1056 | The worker's stale rejection changes nothing when it cannot be written |
| SkillRevisions.RollbackRestoresIff | evolution/approval_service.go:312-427 | A failed rollback leaves all revisions and the pointer as they were if and only if the faults and the state say that nothing had been demoted, or that the target was written and the restoring writes it needed succeeded |
| SkillRevisions.RollbackChangesTwo | evolution/approval_service.go:295-385 | A successful rollback changes exactly the previous active revision and the target, and pointer and body become the target's |
| SkillRevisions.RollbackChooses | evolution/approval_service.go:480-513 | A rollback restores the archived revision asked for, or else the last archived one in creation order, in place of the pointer's revision, or of the last active one when the pointer is empty |
| SkillRevisions.NothingToRestoreIff | evolution/approval_service.go:557-596 | When its reads work a rollback reports that nothing is archived exactly when the revision asked for is not, or none is |
| SkillRevisions.BodyIsNeededIff | evolution/approval_service.go:515-527 | A rollback is refused for want of a body exactly when the target is no tombstone and has none |
| SkillRevisions.LatestIsExact | evolution/approval_service.go:495-513 | The backward search finds the last revision of the status, or nothing exactly when there is none |
| SkillRevisions.RollbackCanStrandPointer | evolution/approval_service.go:312-385 | A concrete failed rollback that leaves the pointer on an archived revision |
| SkillRevisions.LatestIsLast | evolution/approval_service.go:495-513 | The latest revision of a status is the last one of that status in creation order |
| GovernanceService.ApprovalService.Decide | evolution/approval_service.go:107-167 | With any set of failing calls, leaves store, pointer and body as the specified decision does, with its result; unless it reports a failure it keeps the skill consistent |
| GovernanceService.ApprovalService.ApproveRevision | evolution/approval_service.go:198-232 | Publishes, archives, moves the pointer and writes in this order, stopping at the first failing call |
| GovernanceService.ApprovalService.RejectStaleRevision | evolution/approval_service.go:169-196 | A stale revision is stored as rejected by a human decision, unless that write fails, and is always reported stale |
| GovernanceService.ApprovalService.ArchiveCurrentActiveRevision | evolution/promotion.go:86-125 | Archives the revision the pointer has, unless it is missing or is the replacing one |
| GovernanceService.ApprovalService.PublishRevision | evolution/worker.go:935-1056 | With any set of failing calls, rejects a stale revision and publishes any other as specified, keeping a consistent skill consistent exactly under the stated condition |
| GovernanceService.ApprovalService.FindLatest | evolution/approval_service.go:495-513 | The backward walk finds the latest revision of the status in creation order |
| GovernanceService.ApprovalService.SelectRollbackTarget | evolution/approval_service.go:557-596 | The wanted revision, or the latest archived one |
| GovernanceService.ApprovalService.CurrentActiveRevisionID | evolution/approval_service.go:480-493 | The pointer's revision, or with an empty pointer the latest active one |
| GovernanceService.ApprovalService.ArchiveActive | evolution/approval_service.go:598-627 | The previous active revision is stored as archived unless there is none, naming the call that failed |
| GovernanceService.ApprovalService.RestoreRollbackRevisions | evolution/approval_service.go:416-427 | Writes back the revisions a rollback had changed, each write failing on its own |
| GovernanceService.ApprovalService.Rollback | evolution/approval_service.go:295-385 | With any set of failing calls, leaves store, pointer and body as the specified rollback does, with its result; unless it reports a failure it keeps the skill consistent |
| ViewHeap.PathsCorrespond | agent/invocation.go:1772-2035 | A value and its clone offer the same paths, cyclic ones included, and every path ends at a value and its copy |
| ViewHeap.ReachedCellsAreFresh | agent/invocation.go:1772-2035 | What a path of the clone reaches is a new cell, unless the original there only leads through pointers to an opaque struct; buffers are always new with the same contents |
| ViewHeap.SharingIsPreserved | agent/invocation.go:1876-1994 | Two paths meet in the clone exactly where they meet in the original |
| ViewHeap.KeysAreShared | agent/invocation.go:1935-1944 | Every map of the clone is new and has the very keys of the original, so that a pointer key leads to the same cell in both |
| ViewHeap.FollowStaysInside | agent/invocation.go:1772-2035 | What a closed value shows does not depend on cells outside its heap |
| ViewHeap.WritesAreIsolated | agent/invocation.go:1710-1749 | Overwriting any cell the clone reaches is invisible along every path of the original, short of what is kept by reference |
| ViewMemo.HitIsCopyable | agent/invocation.go:1876-1906 | A memo hit never returns a copy that is withdrawn later |
| ViewMemo.ContainersSettle | agent/invocation.go:1921-2035 | While a container is being filled no entry of the memo can still be withdrawn |
| ViewMemo.WithdrawnSound | agent/invocation.go:1876-1906 | Deleting the memo entry of a refused pointer leaves no finished copy that leads to the abandoned cell |
| ViewMemo.RefusedPointer | agent/invocation.go:1876-1906 | A refused pointer leaves the memo as it was before it |
| ViewMemo.SoundIsCloned | agent/invocation.go:1772-1787 | A memo without unfinished entries describes an injective, complete copy of all it maps |
| ViewClone.Cloner.CloneViewState | agent/invocation.go:1710-1749 | Terminates on every heap; each key's value is shared or a finished clone, and clones of different keys share no cell |
| ViewClone.Cloner.CloneStateValue | agent/invocation.go:1772-1787 | The result is a finished copy with a fresh memo, or the value itself if refused; the original heap is untouched |
| ViewClone.Cloner.CloneValue | agent/invocation.go:1793-1827 | Terminates; succeeds exactly when the value is not a chain of pointers to an opaque struct, and then yields its copy in a grown memo |
| ViewClone.Cloner.CloneKnown | agent/invocation.go:1829-1865 | A buffer is copied to a new cell at every reference and never enters the memo |
| ViewClone.Cloner.ClonePointer | agent/invocation.go:1876-1906 | A pointer is entered before its target is cloned, and its entry is finished or withdrawn with the target's success |
| ViewClone.Cloner.CloneMap | agent/invocation.go:1921-1946 | A map is entered before its values are cloned and filled completely, in any order |
| ViewClone.Cloner.CloneElement | agent/invocation.go:1948-1964 | An element that is refused stays itself; any other becomes its copy |
| ViewClone.Cloner.CloneSlice | agent/invocation.go:1966-1994 | A slice is entered before its elements are cloned and filled completely |
| ViewClone.Cloner.CloneParts | agent/invocation.go:1996-2035 | Fields and elements become their copies one by one in one growing memo |
| KeyedLock.MutualExclusion | codeexecutor/metadata.go:222-260 | Holders of one key exclude each other, however often the key's lock object was replaced |
| KeyedLock.RefsCountUsers | codeexecutor/metadata.go:222-260 | A key is in the map exactly while it has holders or waiters, and its count is their number |
| KeyedLock.ReleaseDeletesItsOwn | codeexecutor/metadata.go:250-260 | The map entry at a release is the releaser's own object, and it is removed exactly when nobody else uses the key |
| KeyedLock.SomebodyCanMove | codeexecutor/metadata.go:222-260 | While a key has users, one of them can take a step without cancellation or a newcomer |
| KeyedLock.Locker.Enter | codeexecutor/metadata.go:222-233 | Finds or creates the key's object with one more reference, leaving every other object's count |
| KeyedLock.Locker.ReleaseRef | codeexecutor/metadata.go:250-260 | One reference less, and the key forgotten exactly at zero |
| KeyedLock.EnterRefines | evolution/promotion.go:37-60 | The in-place entry is the protocol's entry step on the represented world |
| KeyedLock.ReleaseRefines | evolution/promotion.go:37-60 | The in-place release is the protocol's release step on the represented world |
| StreamRuns.BytesConserved | agent/stream_hub.go:285-421 | At every step bytes delivered, the reader's remainder and the queue are together the accepted writes in order |
| StreamRuns.ReadsAreProductive | agent/stream_hub.go:367-421 | A successful read of positive size delivers between one byte and the size asked for |
| StreamRuns.FirstCloseWins | agent/stream_hub.go:227-237 | Once closed, a stream stays closed with the error of the first close |
| StreamRuns.CloseErrorIsReported | agent/stream_hub.go:227-263 | After a first close with some error, a read that meets the end and an uncancelled write that fails both fail with that error; after one without, with EOF and a closed pipe |
| StreamRuns.ReadFailuresAreExplained | agent/stream_hub.go:367-421 | A read fails only at the end of a closed stream or because it was cancelled |
| StreamRuns.ClosedStreamEndsIff | agent/stream_hub.go:285-400 | A read that found nothing meets the end exactly if the stream is closed, and waits otherwise; a write with data begins exactly if it is open |
| StreamRuns.WritesAreAllOrNothing | agent/stream_hub.go:285-309 | The accepted chunks are exactly the data of the writes that returned without an error, whole and in that order |
| StreamRuns.WriteResultIs | agent/stream_hub.go:285-309 | A write returns its full length as it is accepted, zero for no data, or, with nothing accepted, its own cancellation or the closed stream's error |
| StreamRuns.ClosedWritesFailAlike | agent/stream_hub.go:239-250 | After a close every write that fails without being cancelled returns the error of that first close, or a closed pipe if it gave none |
| StreamRuns.EndIsCompleteIff | agent/stream_hub.go:367-421 | When a read reports the end, all accepted bytes were delivered if and only if no write was accepted since that read began |
| StreamRuns.ReadBegan | agent/stream_hub.go:367-421 | A read that has not returned at some step began at an earlier one, so EndIsCompleteIff speaks of every read that ends |
| StreamRuns.QuietStays | agent/stream_hub.go:227-309 | After a close with no write in progress nothing more is accepted and no read blocks |
| StreamRuns.QuietReadsDeliverTheRest | agent/stream_hub.go:367-421 | From then on a read fails only with the first close error or EOF, and only after every accepted byte was delivered |
| StreamRuns.QuietReadsProgress | agent/stream_hub.go:367-421 | From then on as many reads of positive size as there are bytes deliver all of them |
| StreamRuns.RacingEndLosesBytes | agent/stream_hub.go:285-421 | A concrete run whose reader gets EOF while an accepted byte is still queued |
| StreamRuns.OpenOnce | agent/stream_hub.go:126-225 | Of any sequence of open requests exactly the first for each named end succeeds |
| StreamHub.Stream.MarkOpen | agent/stream_hub.go:201-225 | Succeeds exactly the first time for each end, leaving the other end alone |
| StreamHub.Stream.CloseWithError | agent/stream_hub.go:227-237 | Closes in place, keeping an earlier close's error |
| StreamHub.StreamWriter.Begin | agent/stream_hub.go:285-297 | Is the head of a write that the machine's runs are made of, on the stream as it is |
| StreamHub.StreamWriter.Write | agent/stream_hub.go:285-309 | An undisturbed write: the whole chunk is queued, or nothing is, and the result says which |
| StreamRuns.WriteAloneIsRun | agent/stream_hub.go:285-309 | An undisturbed write is the run of one write on the machine, with the same result and stream |
| StreamRuns.ReadAloneIsRun | agent/stream_hub.go:367-421 | An undisturbed read is the run of one read on the machine, with the same result and stream |
| StreamHub.StreamWriter.TrySend | agent/stream_hub.go:297-309 | A chunk is queued whole exactly while the channel has room |
| StreamHub.StreamReader.ServeBuffer | agent/stream_hub.go:367-385 | The remainder's next bytes are handed out and only they are used up |
| StreamHub.StreamReader.TryReceive | agent/stream_hub.go:385-421 | The oldest chunk becomes the remainder exactly when the queue is not empty |
| StreamHub.StreamReader.Head | agent/stream_hub.go:367-400 | A read up to its blocking select, in place |
| StreamHub.StreamReader.Read | agent/stream_hub.go:367-421 | An undisturbed read: bytes, the end, or a wait, in place |
| StreamHub.Hub.GetOrCreate | agent/stream_hub.go:163-188 | The stream of a name, created unopened the first time and the same ever after |
| StreamHub.Hub.OpenEnd | agent/stream_hub.go:126-161 | Opens an end of a named stream at most once over all calls |
| ReconcileTheorems.ReconcilesConservatively | evolution/reconcile.go:91-158 | Non-nil skills in are skills out plus one event each, updates grow by exactly the rewrite events, added updates target existing skills that are not to be deleted, deletions stay, and distinct update targets stay distinct |
| ReconcileTheorems.ReconcileIsIdempotent | evolution/reconcile.go:91-110 | Reconciling a reconciled decision changes nothing and reports no event |
| ReconcileTheorems.LongestParentWins | evolution/reconcile.go:506-526 | A candidate has a superset parent exactly when some existing skill qualifies, and then it is a longest one |
| ReconcileTargets.QualifiesIffVariant | evolution/reconcile.go:506-578 | A name qualifies as parent exactly when the candidate is it, or it followed by blanks, if any, and then a separator or a version |
| ReconcileTargets.LongestGenericNameWins | evolution/reconcile.go:398-419 | The quantified-sibling rule aims at a skill exactly when the candidate has a family other than its own name and some other name of that family has a multiplicity marker or no count, and then at a longest such name |
| ReconcileTargets.LastNameWins | evolution/reconcile.go:186-196 | Of several skills with the target's normalized name the superset and sibling rules take the last |
| ReconcileTargets.BestOverlapWins | evolution/reconcile.go:638-830 | The word-overlap rule aims at a skill exactly when the candidate has two significant words and shares half of the words with some comparable name, and then at the first of those that share most |
| ReconcileTheorems.SortIsStable | evolution/reconcile.go:488-500 | The sort is a permutation into descending length that keeps the order among equal lengths |
| ReconcileTheorems.BestIsBest | evolution/reconcile.go:751-767 | The best overlap is a listed skill with the score reported, and no skill scores higher |
| ReconcileTheorems.TargetExists | evolution/reconcile.go:171-287 | Under each of the three rules a target is an existing skill |
| ReconcileTheorems.RewriteAddsSoundly | evolution/reconcile.go:300-391 | Every update a pass adds carries a candidate's spec under the target's name, for a target that exists and is not to be deleted |
| ReconcileTheorems.RewriteAddsNew | evolution/reconcile.go:638-730 | The targets a pass adds are new, and each occurs once |
| ReconcileTheorems.PassSettles | evolution/reconcile.go:91-110 | A pass leaves nothing for its own rule and reopens neither an earlier rule nor a dropped duplicate |
| ReconcileTargets.PassIsExact | evolution/reconcile.go:171-287 | A pass decides each candidate by its aim, the updates and deletions there were, and the aims of the candidates before it: kept, turned into an update, or dropped as a conflict or a duplicate, with its event |
| ReconcileTargets.DedupIsExact | evolution/reconcile.go:120-158 | Dropping duplicates keeps, in order, exactly the candidates that repeat no earlier one that is kept, and reports exactly the others |
| Reconcile.DedupCandidateSkills | evolution/reconcile.go:120-158 | The loop keeps the first candidate of each name and shape and reports every other one |
| Reconcile.SortIndexByLengthDesc | evolution/reconcile.go:488-500 | The in-place insertion sort is the specified stable sort |
| Reconcile.SinkIntoPlace | evolution/reconcile.go:488-500 | The inner loop of swaps is one insertion into the sorted prefix and leaves the rest of the array |
| Reconcile.BuildIndex | evolution/reconcile.go:186-196 | The index lists the existing skills with non-empty normalized names |
| Reconcile.MatchSupersetParent | evolution/reconcile.go:506-526 | The loop returns the first qualifying parent of the index |
| Reconcile.MatchQuantifiedSiblingParent | evolution/reconcile.go:398-415 | The loop returns the first generic sibling of the index |
| Reconcile.BuildExistingWordsIndex | evolution/reconcile.go:736-746 | The index lists the existing skills with significant words |
| Reconcile.FindBestWordOverlap | evolution/reconcile.go:751-767 | The loop computes the specified best overlap and its score |
| Reconcile.RewriteSkills | evolution/reconcile.go:171-391 | Each pass, with its set of rewritten targets updated in place, is the specified pass |
| Reconcile.ReconcileWithLibrary | evolution/reconcile.go:91-110 | The whole reconciliation is the specified one, a nil decision being returned as it is |
| JsonScanner.FindsTheObject | evolution/reviewer.go:406-443 | For every JSON object text of sections 2 to 7 of RFC 8259, every prefix without an opening brace and every suffix, exactly that object is found |
| JsonScanner.FoundInPlaceIff | evolution/reviewer.go:406-443 | For every JSON object, prefix and suffix, the extraction starts at the object and returns exactly it if and only if the prefix has no opening brace |
| JsonScanner.StrayBraceHidesTheObject | evolution/reviewer.go:406-443 | A concrete prefix with an opening brace after which nothing is found |
| JsonScanner.ExtractFirstJSONObject | evolution/reviewer.go:406-443 | The two loops compute the specified extraction, for every text |
| JsonScanner.ScanObject | evolution/reviewer.go:411-441 | The loop stops at the byte that closes the object, or at the end of the text |
| JsonScanner.ValueSkipped | evolution/reviewer.go:411-441 | Within an object any complete JSON value is passed over with the depth unchanged, whatever its strings contain |
| JsonScanner.ObjectSpan | evolution/reviewer.go:411-441 | Up to its closing brace an object puts the scanner exactly one level deeper |
| InterruptReplay.ResumesAnswerInOrder | graph/resume.go:18-60 | For any n distinct keys, after i resumes with one value each the first i asks have answered their own values in order and the node stops at ask i+1, or completes |
| InterruptReplay.ResumeAnswersOne | graph/resume.go:18-60 | One resume answers exactly one more ask and replays all earlier ones |
| InterruptReplay.AnswersIff | graph/resume.go:18-117 | An ask answers exactly when its key was answered before or a value waits for it, and the answer is then recorded |
| InterruptReplay.ReadsIff | graph/resume.go:63-90 | A read answers exactly when a value of its type waits, the channel's before the key's in the map, and uses up only what it returns |
| InterruptReplay.SameKeySameValue | graph/resume.go:18-90 | Whatever is asked, read, resumed or cleared meanwhile, a key that was answered gets the same answer again |
| InterruptReplay.DeliveredOnce | graph/resume.go:18-90 | Over any sequence of asks, reads and resumes every delivery to a new key or to a read has a supplied value of its own, of the channel or of the key's entry in a map, so no value is delivered twice |
| InterruptReplay.UsedWasDelivered | graph/resume.go:18-60 | A key is recorded with a value exactly when it was from the start or an ask of that key was delivered that value |
| InterruptReplay.OneKeyPerValue | graph/resume.go:34-40 | A value put on the channel and supplied in no other way becomes the recorded answer of one key at most, ever |
| InterruptReplay.AttemptIsAsks | graph/resume.go:18-60 | An attempt of a node does what a sequence of asks does, so that all this holds over any attempts |
| InterruptReplay.GraphState.Interrupt | graph/resume.go:18-60 | The in-place ask returns and records the specified answer |
| InterruptReplay.GraphState.ResumeValue | graph/resume.go:63-90 | The in-place read returns a value only of the wanted type and uses it up |
| InterruptReplay.GraphState.ClearAllResumeValues | graph/resume.go:129-132 | No value waits afterwards, while used answers stay |
| InterruptReplay.GraphState.RunNode | graph/resume.go:18-60 | An attempt of a node in place is the specified attempt |
| PassAtK.PassAtKIsAChance | evaluation/pass.go:97-139 | The estimate is one minus the fraction of k-element subsets of the runs that contain no success, in every branch |
| PassAtK.FailingDraws | evaluation/pass.go:97-139 | The subsets counted in that fraction are exactly the draws without a success |
| PassAtK.AsFraction | evaluation/pass.go:97-139 | Both early returns and the factorial ratio are one fraction of binomial coefficients |
| PassAtK.FactorialRatio | evaluation/pass.go:120-139 | The ratio of factorials the code evaluates is C(n-c,k) / C(n,k) |
| PassAtK.ChoicesCount | evaluation/pass.go:97-139 | The binomial coefficient counts the k-element subsets |
| PassAtK.ChooseIsFactorials | evaluation/pass.go:120-139 | C(n,k) k! (n-k)! is n! |
| PassAtK.PassAtKBounds | evaluation/pass.go:97-139 | There is an estimate exactly for valid arguments, and it lies in [0,1] |
| PassAtK.FirstFaultIsReported | evaluation/pass.go:97-112 | Of several faulty arguments the first in the order of the checks is the one reported |
| PassAtK.MonotoneInSuccesses | evaluation/pass.go:97-139 | One more success never lowers the estimate |
| PassAtK.MonotoneInK | evaluation/pass.go:97-139 | One more draw never lowers the estimate |

## Left out

- DagLoopObject.DagLoop.Run: assumes that every task finishes, and that the end of the context wins the wait's select only finitely often, as a fair choice makes it; a loop that was not seeded and is never cancelled does not return
- GovernanceRuns.PointerNamesTheActiveRevision: assumes working storage and no shadow mode, which breaks it by design; what storage failures do to one operation is stated in `GovernanceFaults`
- KeyedLock.Locker.Enter: the one-slot channel itself is a step of the protocol, not a method of the class
- StreamHub.StreamReader.Read: like StreamHub.StreamWriter.Write, is the undisturbed call; interleaved reads, writes and closes are runs of `StreamRuns`
- ViewClone.Cloner.CloneKnown: covers pointers to buffers; buffers held by value and the conversion of cloned values to named types are not modelled
- ViewHeap.SharingIsPreserved: each address is one whole cell, so interior pointers and overlapping slices are outside it
- ViewHeap.ReachedCellsAreFresh: paths do not go through the keys of maps; the code keeps keys as they are, so what a pointer key leads to is shared, which KeysAreShared states
- ViewHeap.WritesAreIsolated: speaks of cells reached without going through the keys of maps
- PassAtK.PassAtKIsAChance: is about exact arithmetic; logarithms of the gamma function and rounding are not modelled, nor is `PassHatK`
- Reconcile.ReconcileWithLibrary: what regular expressions, case folding and stop words do to names is a parameter of the model, and the results hold for every choice of it
- Files, directories, atomic renames, audit and log text, metrics counters: the store, the pointer and the publisher are fields with calls that may fail
- Model calls, prompts and text heuristics of the evolution worker; the bodies of its gates, which here give an arbitrary verdict
- Checks of submitted evidence, shadow mode, direct publication without gates, routing by scope, the sweep of expired approvals
- The lock file between processes of `lockSkill`; the in-process lock is modelled
- `executeSingleTask`, `handleInterrupt`, checkpoints, events and tracing of the graph executor: a task runs, writes channels, fans out and succeeds, fails or interrupts in any way
- `WriteString` and `CloseAll` of streams, `ClearResumeValue` of resumes: they add nothing to the operations modelled
- Normalization of review decisions, graph caches, checkpoint stores and call options: field by field copies and lookups
