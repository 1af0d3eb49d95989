# Control gateway, Second Shift and Book lifecycle: a verified model

This project models the protocols of the repository that many independent actors run at once, and proves what they
promise over whole runs.

**Second Shift.** Four programs share one database: the supervisor store (lanes with a control head and a fencing
counter, delegations, leases, dispatches and an append-only log), the coordination adapter (dependency graph, capacity,
cascading cancellation), the night scheduler (queue, slot budget, claim guard, stage barrier) and the execution worker
(a second fence under the lease, recovery, a commit in two transactions). Every public method is one atomic transaction.
`SupervisorSpec`, `CoordinationSpec`, `NightSpec` and `ExecutionSpec` give the transactions as functions on the tables;
the classes in `SupervisorStore`, `CoordinationAdapter`, `NightScheduler` and `ExecutionWorker` carry them out statement
by statement and loop by loop, and are proved to end as the functions say. `SupervisorEffects`, `CoordinationEffects`,
`NightEffects` and `ExecutionEffects` tell the same row by row, without the functions: when a transaction is accepted, what
becomes of the rows that it is about, and that all others are kept; the classes promise that as well. `SecondShift` puts all
of them into one system, and `SecondShiftRuns`, `CoordinationRuns`, `EndingRuns`, `AuditRuns` and `WorkerRuns` state the
results over whole runs, for every interleaving.

**System-file leases.** Coordinators take multi-path leases by compare-and-swap on a Git ref that only moves forward. A
sent update may arrive late, or be applied and reported as failed. `FileLeaseSpec` is the step system, `FileLeaseEffects`
what a step does to the records, `FileLeaseRuns`, `FileLeaseOnce` and `FileLeaseRecovery` the results,
`FileLeaseCoordinator` the retry loops.

**Active-work publication.** Publishers append hash-linked envelopes to a ref (`PublicationSpec`, `PublicationEffects`,
`PublicationSafety`, `Publisher`).

**Book lifecycle.** A state machine over ordered phases, any number of them, with a calculated next step (`BookSpec`,
`BookEffects`, `BookSafety`, `BookMachine`).

**Automation order.** The layered topological sort of the planner (`AutomationOrder`).

## What holds only under a condition

- The supervisor's audit is not an invariant of the raw store. `AuditRuns.StepAudit` gives the exact condition under which
  a transaction breaks it, `AuditCounterexample.AuditCanBreak` a run, and `AuditRuns.GuardedAuditClean` the guard that
  excludes it. `SchedulerGuard` says when the scheduler's filter is that guard.
- Dependency closure and capacity are no invariants either: the raw `claim_ready` looks at neither
  (`CoordinationCounterexample.PlanCanBreak`). `SecondShift.StepPlan` gives the exact condition for each, and the results in
  `CoordinationRuns` that need it say so: `NeverSkips` and `NeverOverfills` are about the raw claims of the run, and
  `OrderlyIsEnough` derives both from the rule that coordinated work is claimed through coordination or the scheduler. All
  other results of Second Shift hold on every run.
- One `acquire` call raises the epoch of a path at most once if and only if it may try at most once
  (`FileLeaseOnce.RaisesOnceExactly`); the default of three tries does not meet that. `FileLeaseRuns.RaisesOnceUnlessReleased`
  and `FileLeaseRuns.SecondRaise` say what must have happened in between; they and `FileLeaseEffects.KeepsOthersOut` assume a
  positive time to live of every request, which the default of ten minutes meets. `FileLeaseEffects.NextTaker` needs no such
  assumption.
- `recoverApplied` can refuse a receipt that a legal call returned (`FileLeaseSplit.SplitIsRefused`).
  `FileLeaseRecovery.RecoversExactly` states exactly when it gives the leases back; a receipt for the call's own commit
  recovers while it is held and the commit is less than 10000 back (`FileLeaseRecovery.RecoversOwn`), and after its own
  release for as long as nobody takes its paths (`FileLeaseRecovery.RecoversOwnReleased`).
- READY does not mean that all earlier phases are complete: `reopenPhase` can break that, and nothing here claims it.

## Reading the model

Identifiers, digests of admitted objects and instants are numbers. A query's row order is left open: the transactions are
proved for every order. Identifiers that the program draws at random are inputs, and a collision with a stored primary
key is an error. A clock reading is an input of each transaction and need not grow. The shift window and the date of the
night are the inputs `shiftOpen` and a number. In the lease branch a digest is the value that it is
taken over; in the publication chain it is a function that one theorem assumes to be collision-free.

## Model

| member | source | states |
|---|---|---|
| `SecondShiftRuns.LaterMoves` | tools/second_shift_supervisor_v2.py:115-123 | Between any two states of any run of all actors (crashes are transactions that never come, failed ones are rolled back) every table invariant holds and every row has only moved forward |
| `SecondShiftRuns.FencedForEver` | tools/second_shift_supervisor_v2.py:765-774 | A lease and fence that could once pass the live-worker check and later cannot, because it was fenced, released or superseded, never passes again |
| `SecondShiftRuns.OneAuthorityPerLane` | tools/second_shift_supervisor_v2.py:765-774 | In every reachable state at most one pair of lease and fence per lane can pass the live-worker check |
| `SecondShiftRuns.FencesIncrease` | tools/second_shift_supervisor_v2.py:337-346 | Every fence issued later on a lane, by a claim or by a recovery, lies above all fences and the counter of the lane before |
| `SecondShiftRuns.CounterIncreases` | tools/second_shift_supervisor_v2.py:622-645 | The counter of a lane never falls, and has grown whenever the control head changed or a live lease was cancelled |
| `SecondShiftRuns.RecoveryRaisesCounter` | tools/second_shift_supervisor_v2.py:651-674 | Every lease that `recover` ends, by expiry or by the timeout of its evaluation, raises the counter of its lane |
| `SupervisorInvariants.GrantKeeps` | tools/second_shift_supervisor_v2.py:303-354 | A granted claim keeps foreign keys, agreement of claim and delegation, one claim per delegation, one live claim per lane, and one lease per fence |
| `SupervisorInvariants.TouchKeeps` | tools/second_shift_supervisor_v2.py:573-615 | Any change around one claim that meets the stated conditions keeps all of the above for every other row |
| `SupervisorInvariants.EvolvesTransitive` | tools/second_shift_supervisor_v2.py:647-676 | Forward movement of lanes, delegations, claims, dispatches and the log composes over transactions |
| `StoreSteps.RecoverSafe` | tools/second_shift_supervisor_v2.py:647-676 | The two recovery loops, over any number of leases in any order, keep consistency, forward movement, the evaluation certificates, the failure accounting and, if it held, the validation guard |
| `StoreSteps.InvalidateHeadSound` | tools/second_shift_supervisor_v2.py:622-645 | A moved control head ends the live claim, stales the waiting candidates and READY work, raises the fence, and keeps every promise |
| `StoreSteps.TerminalSound` | tools/second_shift_supervisor_v2.py:582-615 | A terminal result, replay included, keeps every promise |
| `AuditRuns.StepAudit` | tools/second_shift_supervisor_v2.py:688-722 | Of all transactions of all actors, exactly a `recover` that times out a candidate beside a live in-time lease of the same lane makes the audit fail |
| `AuditRuns.RecoverAudit` | tools/second_shift_supervisor_v2.py:662-674 | The audit is clean after `recover` if and only if no waiting candidate timed out on a lane with a surviving live lease |
| `AuditRuns.AuditUntilCrossing` | tools/second_shift_supervisor_v2.py:688-722 | On every run the audit is clean up to the first such crossing, and that one breaks it |
| `AuditRuns.GuardedAuditClean` | tools/second_shift_supervisor_v2.py:688-722 | If every lease that is granted, replays and refusals aside, goes to a lane without a VALIDATING claim, the audit is clean in every reachable state and a lane has at most one open claim |
| `AuditCounterexample.AuditCanBreak` | tools/second_shift_supervisor_v2.py:329-336 | A concrete run without that guard ends in a state that the audit rejects |
| `SchedulerGuard.FilterSeesWaiting` | control-gateway/python/a01_night_scheduler.py:389-409 | After `reconcile` the candidate filter holds a lane back if and only if a claim of scheduled, bound and uncancelled work of the lane waits for its evaluator |
| `SchedulerGuard.CandidateRespectsValidation` | control-gateway/python/a01_night_scheduler.py:397-409 | The filter keeps the guard whenever all waiting candidates of the lane are such work |
| `SchedulerGuard.CancelHidesWaiting` | control-gateway/python/a01_supervisor_coordination_strict.py:481-495 | Cancelling a waiting candidate leaves its claim VALIDATING and hides it from the filter |
| `SecondShift.StepPlan` | control-gateway/python/a01_supervisor_coordination_strict.py:271-297 | Of all transactions of all actors, exactly a raw `claim_ready` that grants work with an open dependency breaks the dependency closure, and exactly one that grants work on a full resource breaks the capacity bound |
| `SecondShiftRuns.GraphStaysSound` | control-gateway/python/a01_supervisor_coordination_strict.py:112-236 | In every reachable state the stored graph is acyclic and of one identity; edges, tasks and the limits of resources stay, and every task carries the fixed limit of its resource |
| `CoordinationRuns.ClosureUntilSkipped` | control-gateway/python/a01_supervisor_coordination_strict.py:271-287 | On every run each claimed delegation has its dependencies COMPLETED up to the first raw claim that skips one, and that one breaks it |
| `CoordinationRuns.ClaimedAfterDependencies` | control-gateway/python/a01_supervisor_coordination_strict.py:271-287 | On a run in which no raw claim skips a dependency, a delegation that was ever claimed has all transitive dependencies COMPLETED, now and later |
| `SecondShiftRuns.ClaimedAtMostOnce` | tools/second_shift_supervisor_v2.py:334-336 | A delegation is claimed at most once in its life |
| `SecondShiftRuns.DelegationsSettle` | tools/second_shift_supervisor_v2.py:287-294 | COMPLETED is for ever; BLOCKED, STALE and CANCELLED lead only to each other and never to a live claim |
| `SecondShiftRuns.CancelledForEver` | control-gateway/python/a01_supervisor_coordination_strict.py:348-363 | After a cascading cancellation, every direct or indirect dependent that was not COMPLETED has no live claim and is never COMPLETED or claimed in any later state |
| `CoordinationRuns.NothingPastTheDead` | control-gateway/python/a01_supervisor_coordination_strict.py:271-287 | On such a run, work that depends on a dead delegation, even if bound later, never gets a claim |
| `CoordinationRuns.CapacityUntilOverfilled` | control-gateway/python/a01_supervisor_coordination_strict.py:289-297 | On every run no resource has more occupants than its limit of at most 64, runs that were told to stop included, up to the first raw claim on a full resource, and that one breaks the bound |
| `CoordinationRuns.OrderlyIsEnough` | control-gateway/python/a01_supervisor_coordination_strict.py:238-346 | If coordinated work is claimed through coordination or the scheduler only, no claim skips a dependency or overfills a resource |
| `CoordinationCounterexample.PlanCanBreak` | tools/second_shift_supervisor_v2.py:303-354 | A concrete run in which a raw `claim_ready` breaks both |
| `CoordinationRuns.StopsUntilAcknowledged` | control-gateway/python/a01_supervisor_coordination_strict.py:365-389 | A cancelled run that was dispatched leaves CANCEL_REQUESTED by the acknowledgement of the recorded run, and by no other transaction of any actor |
| `CoordinationRuns.CancelledRunKeepsSlot` | control-gateway/python/a01_supervisor_coordination_strict.py:414-474 | After a cancellation that reaches it, directly or by cascade, a dispatched run occupies its resource in every later state before its acknowledgement |
| `EndingRuns.EndedRunStops` | tools/second_shift_supervisor_v2.py:573-581 | Whatever transaction of any actor ends a live lease as STALE or CANCELLED leaves a dispatched run in CANCEL_REQUESTED, and withdraws a dispatch that nobody took up |
| `EndingRuns.EndedRunKeepsSlot` | tools/second_shift_supervisor_v2.py:576 | After a lease was ended as STALE or CANCELLED, by recovery, a moved head, a terminal result or a cancellation, its dispatched run occupies its resource in every later state before its acknowledgement |
| `SecondShiftRuns.CancelledHasNoLease` | control-gateway/python/a01_supervisor_coordination_strict.py:446-474 | A cancelled task has no live claim, now or later |
| `SecondShiftRuns.SlotsConserved` | control-gateway/python/a01_night_scheduler.py:186-237 | The slots of a night are exactly 1..used, at most 64, one per lease and delegation; the accounting mismatch cannot occur; no authorization row outlives a transaction |
| `SecondShiftRuns.SlotRefusedExactly` | control-gateway/python/a01_night_scheduler.py:186-237 | A slot for new work is refused exactly when the night is full or has another limit; no uniqueness constraint ever fires |
| `SecondShiftRuns.QueuedClaimsPayOnce` | control-gateway/python/a01_night_scheduler.py:129-146 | Every claim inserted while its delegation was queued booked exactly one slot, which stays booked |
| `SecondShiftRuns.CompletedIsCertified` | tools/second_shift_supervisor_v2.py:532-563 | Work that needs evaluation is COMPLETED only with a PASS verdict in the log for the handed-off digest, in time, by another evaluator, with the lane not taken since the claim; a verdict id takes effect once |
| `EvaluationSafety.VerdictCertifies` | tools/second_shift_supervisor_v2.py:539-563 | An accepted PASS verdict creates that certificate |
| `SecondShiftRuns.AttemptsAccounted` | tools/second_shift_supervisor_v2.py:421-438 | `attempt` is the number of accepted failures, all with different ids, plus one for an acknowledged run; at most three failures, and `attempt` at most 4 |
| `SecondShiftRuns.ReplayedFailure` | tools/second_shift_supervisor_v2.py:391-414 | A replayed failure changes nothing and gets the first answer, however much later and even after a dispatch |
| `SecondShiftRuns.OneRunner` | control-gateway/python/a01_execution_worker.py:546-651 | A dispatch has at most one RUNNING attempt, the one its result row names, and `attempt_count` is the number of attempt rows |
| `SecondShiftRuns.GenerationsIncrease` | control-gateway/python/a01_execution_worker.py:452-476 | Later attempts have higher generations |
| `SecondShiftRuns.ExecutionSettles` | control-gateway/python/a01_execution_worker.py:295-327 | A superseded generation, owner and attempt never renews or stages again; a staged payload is never rewritten; final results never change; a dispatch that is not retry-safe gets no further attempt |
| `SecondShiftRuns.NoSecondAttempt` | control-gateway/python/a01_execution_worker.py:371-389 | Once an attempt began by an acquisition that asked for no retry, the dispatch gets no further attempt row on any run |
| `SecondShiftRuns.RecoveryNeverTrips` | control-gateway/python/a01_execution_worker.py:349-370 | Claim, dispatch and result fences agree for every live claim, so the identity check of the recovery never fails |
| `SecondShiftRuns.FinalAgrees` | control-gateway/python/a01_execution_worker.py:778-823 | SUCCEEDED and FAILED results have a COMPLETED or BLOCKED claim with exactly the staged payload, and a staged result that lost its authority has a STALE claim |
| `SecondShiftRuns.CommitSurvivesCrash` | control-gateway/python/a01_execution_worker.py:798-823 | Once the supervisor part of a commit went through, the result is staged or has its final state at any later time, never AUTHORITY_LOST, and the final write gives it that state |
| `SecondShiftRuns.CommitCanBeRepeated` | control-gateway/python/a01_execution_worker.py:778-823 | Whoever comes to a commit that crashed in between finds it finished, or repeats it: the supervisor part is a replay without effect, and the result gets its final state |
| `LeaseRecovery.RecoverLocalKeeps` | control-gateway/python/a01_execution_worker.py:390-508 | The recovery loop succeeds on every consistent state and keeps both fences, over any rows in any order |
| `SupervisorStore.SupervisorStore.RegisterLane` | tools/second_shift_supervisor_v2.py:238-259 | Ends as specified or raises and changes nothing; the tables stay consistent; accepted exactly for a new lane or the same owner path and control ref, and a new head leaves nothing open on the lane |
| `SupervisorStore.SupervisorStore.BindReady` | tools/second_shift_supervisor_v2.py:261-301 | As above; accepted exactly on an idle lane at its head, for a new id or the same READY work again, and then only that work, its lane and the log change |
| `SupervisorStore.SupervisorStore.ClaimReady` | tools/second_shift_supervisor_v2.py:303-354 | As above; accepted exactly for the same earlier claim of the key or for READY work on an idle lane, and a grant writes exactly the rows of the new lease |
| `SupervisorStore.SupervisorStore.MarkDispatched` | tools/second_shift_supervisor_v2.py:356-370 | As above; accepted exactly from the run that is recorded, or from any run while none is and the lease is live; only the dispatch changes |
| `SupervisorStore.SupervisorStore.DispatchFailed` | tools/second_shift_supervisor_v2.py:372-438 | As above; a replay gets the logged answer and changes nothing, a new failure is counted and logged, and the budget of the caller opens the circuit |
| `SupervisorStore.SupervisorStore.ScanFailures` | tools/second_shift_supervisor_v2.py:391-414 | The scan finds the first logged callback with the failure id |
| `SupervisorStore.SupervisorStore.Beat` | tools/second_shift_supervisor_v2.py:440-454 | As above for heartbeat, progress and lease renewal: accepted exactly from the live worker, and only its claim and the log change |
| `SupervisorStore.SupervisorStore.AwaitEvaluation` | tools/second_shift_supervisor_v2.py:463-512 | As above; accepted exactly from the live worker of a dispatched candidate, or as the same handoff of a candidate that waits uncancelled |
| `SupervisorStore.SupervisorStore.EvaluatorVerdict` | tools/second_shift_supervisor_v2.py:514-571 | As above; accepted exactly if recorded before, or under a new id for a candidate that waits in time for this digest, uncancelled, from another run, with its lane not taken since; claim, work and dispatch then are COMPLETED exactly for PASS and else BLOCKED, with the verdict as reason, and no other row changes |
| `SupervisorStore.SupervisorStore.TerminalTx` | tools/second_shift_supervisor_v2.py:582-615 | As above; accepted exactly from the live worker if no evaluator has to complete the work, from the supervisor as STALE, or as an exact repetition; a STALE ending tells a dispatched run to stop and withdraws an untaken dispatch |
| `SupervisorStore.SupervisorStore.InvalidateHead` | tools/second_shift_supervisor_v2.py:622-645 | As above, with the loop over waiting candidates; the live lease ends with its run told to stop, what was open or READY under the old head ends with it, and everything else is kept |
| `SupervisorStore.SupervisorStore.Recover` | tools/second_shift_supervisor_v2.py:647-676 | The two loops leave the specified tables and answer exactly the overdue leases, all STALE afterwards with their runs told to stop; every other lease, work, dispatch and lane is kept |
| `SupervisorEffects.ClaimAccepted` | tools/second_shift_supervisor_v2.py:303-336 | A claim is accepted exactly inside the shift for 30 to 3600 seconds, as a repetition under its key, or for unguarded READY work of a lane without live lease at its head, under new ids |
| `SupervisorEffects.GrantWrites` | tools/second_shift_supervisor_v2.py:337-354 | The new lease is for this request with the next fence, its time to live and one pending dispatch; lane and work show it, the log ends with it, and every other row is kept |
| `SupervisorEffects.RunWrites` | tools/second_shift_supervisor_v2.py:356-370 | A run is recorded once: its dispatch is DISPATCHED with one attempt more and an event, and no other row changes |
| `SupervisorEffects.FailureWrites` | tools/second_shift_supervisor_v2.py:415-438 | A new failure counts one attempt, opens the circuit exactly when the budget of the caller is spent, waits as prescribed, logs its answer, and changes no other row |
| `SupervisorEffects.VerdictWrites` | tools/second_shift_supervisor_v2.py:532-571 | A new verdict ends claim, work and dispatch as COMPLETED exactly if it is PASS, and otherwise as BLOCKED, with the verdict as reason; no other row changes |
| `SupervisorEffects.TerminalWrites` | tools/second_shift_supervisor_v2.py:594-615 | A terminal result ends claim, work and dispatch in that status, frees the lane, and as STALE stops a dispatched run and raises the counter; no other row changes |
| `SupervisorEffects.HeadWrites` | tools/second_shift_supervisor_v2.py:622-645 | A moved head ends the live lease, the waiting candidates and the READY work of the lane and nothing else, and raises its counter |
| `SupervisorEffects.RecoverEffect` | tools/second_shift_supervisor_v2.py:647-676 | Recovery ends exactly the overdue leases, each with its run told to stop, and raises the counters of exactly their lanes; everything else is kept |
| `GraphSearch.CycleFinder.Find` | control-gateway/python/a01_supervisor_coordination_strict.py:527-557 | The depth-first search terminates, answers the empty list exactly when the graph is acyclic, and otherwise a genuine cycle |
| `GraphSearch.CycleFinder.Visit` | control-gateway/python/a01_supervisor_coordination_strict.py:535-550 | One visit returns a cycle, or restores the path and leaves a visited set that is closed and that no cycle goes through |
| `GraphSearch.FindCycle` | control-gateway/python/a01_supervisor_coordination_strict.py:527-557 | The search as a whole is exact |
| `GraphSearch.Descendants` | control-gateway/python/a01_supervisor_coordination_strict.py:498-515 | The worklist terminates with exactly the transitive dependents other than the root, each once |
| `CoordinationSafety.CancelTargetsAreDependents` | control-gateway/python/a01_supervisor_coordination_strict.py:498-515 | In a consistent plan the graph and version filter drops no dependent |
| `CoordinationSafety.DependencyClosure` | control-gateway/python/a01_supervisor_coordination_strict.py:271-287 | A claimed delegation has all its transitive dependencies completed |
| `CoordinationSafety.BindKeeps` | control-gateway/python/a01_supervisor_coordination_strict.py:112-236 | A binding keeps the graph acyclic and of one identity, the fixed limits, closure and capacity, and all supervisor promises |
| `CoordinationAdapter.CoordinationAdapter.Bind` | control-gateway/python/a01_supervisor_coordination_strict.py:112-236 | Ends as specified, or rolls everything back, cycle and identity mismatch included; accepted exactly as stated, and then only task, edges and work of the handoff are new |
| `CoordinationAdapter.CoordinationAdapter.Claim` | control-gateway/python/a01_supervisor_coordination_strict.py:238-346 | As above: a replay, or all checks of task, dependencies, capacity, window and lane before the grant, accepted exactly under them; closure and capacity are kept |
| `CoordinationAdapter.CoordinationAdapter.CancelOne` | control-gateway/python/a01_supervisor_coordination_strict.py:446-496 | Cancels one delegation and nothing else, never fails on valid tables, and keeps the plan |
| `CoordinationAdapter.CoordinationAdapter.RequestCancel` | control-gateway/python/a01_supervisor_coordination_strict.py:348-363 | Cancels the root and, by policy, exactly its dependents, and keeps all other work; refused exactly for an unknown root or a differing override |
| `CoordinationAdapter.CoordinationAdapter.AcknowledgeCancel` | control-gateway/python/a01_supervisor_coordination_strict.py:365-389 | Frees the slot of a cancelled run on its exact acknowledgement |
| `CoordinationEffects.BindingAccepted` | control-gateway/python/a01_supervisor_coordination_strict.py:112-236 | A handoff is bound exactly if its contract is admissible and under the fixed limit, its lane takes it, the work is new or the same, and the task is the same or closes no cycle and stays in its graph |
| `CoordinationEffects.BindWritesRows` | control-gateway/python/a01_supervisor_coordination_strict.py:196-236 | A binding stores the task with exactly its contract, its edges and its READY work, and keeps every other row |
| `CoordinationEffects.StartAccepted` | control-gateway/python/a01_supervisor_coordination_strict.py:238-331 | A handoff is claimed exactly as a repetition of its claim, or in its window with its dependencies delivered, room on its resource and a lease to be had |
| `CoordinationEffects.CancelWrites` | control-gateway/python/a01_supervisor_coordination_strict.py:348-363 | A cancellation ends exactly the reached work that is not over, tells its dispatched runs to stop, and keeps all other work with its claims and tasks |
| `NightScheduler.NightScheduler.ReserveNightSlot` | control-gateway/python/a01_night_scheduler.py:186-237 | Books the next slot or names the failed check |
| `NightScheduler.NightScheduler.ClaimAuthorized` | control-gateway/python/a01_night_scheduler.py:430-600 | The scheduler claim ends as specified or rolls back slot and authorization |
| `NightScheduler.NightScheduler.Enqueue` | control-gateway/python/a01_night_scheduler.py:239-301 | The three transactions, each accepted exactly as stated: an admissible handoff is filed with its row, bound or rolled back, and shown as QUEUED; a refused binding leaves the row BINDING |
| `NightScheduler.NightScheduler.Reconcile` | control-gateway/python/a01_night_scheduler.py:308-354 | Every bound row gets the state that its delegation, task and claim imply |
| `NightScheduler.NightScheduler.ActiveOrders` | control-gateway/python/a01_night_scheduler.py:376-387 | The lowest execution order of the active rows of each lane |
| `NightScheduler.NightScheduler.OrderedCandidates` | control-gateway/python/a01_night_scheduler.py:397-428 | Exactly the rows at the front of their lane that may run now, each once, sorted by priority, order, lane and id |
| `NightScheduler.NightScheduler.Tick` | control-gateway/python/a01_night_scheduler.py:678-726 | A pass claims only rows that are due in the reconciled queue, in order, at most the given number, each under the tables that it finds, and the slots used grow by exactly the number of claims |
| `NightScheduler.PassClaims` | control-gateway/python/a01_night_scheduler.py:678-726 | After a pass the leases are those from before and the claims that it answers; each of these is new, live and for work that was due, and each cost one slot of the night |
| `NightEffects.ReconcileWrites` | control-gateway/python/a01_night_scheduler.py:308-354 | Every filed row shows what became of its work: cancelled, completed, blocked, stale, claimed, at its evaluator or waiting; the rest is kept |
| `NightEffects.StageOpensExactly` | control-gateway/python/a01_night_scheduler.py:376-409 | A row is a candidate of the reconciled queue exactly if it is bound, READY, uncancelled and in its window, all queued work of its lane with a lower order is completed, blocked or cancelled, and none of the lane is with an evaluator |
| `NightEffects.NightAccepted` | control-gateway/python/a01_night_scheduler.py:430-600 | A scheduled claim is accepted exactly inside shift and window as a repetition, or for work that the plan lets start and the store can lease, with a slot left under the same limit |
| `ExecutionWorker.ExecutionWorker.AcquireExecution` | control-gateway/python/a01_execution_worker.py:546-651 | Ends as specified: a first attempt, the own running one again, the next generation, or busy; accepted exactly as stated, and a new attempt stores the retry policy of its caller |
| `ExecutionEffects.AttemptAccepted` | control-gateway/python/a01_execution_worker.py:546-600 | An attempt is acquired exactly on a live lease in time whose dispatch this worker has already or nobody has |
| `ExecutionEffects.AttemptWrites` | control-gateway/python/a01_execution_worker.py:546-651 | A new attempt is one row of the next generation, running for this worker, with the retry policy of the caller; its own running one is answered unchanged |
| `ExecutionEffects.CommitWrites` | control-gateway/python/a01_execution_worker.py:778-823 | A commit ends claim, work and dispatch as the staged result says, makes the result and its attempt final, and changes no other row |
| `ExecutionEffects.RecoverLocalWrites` | control-gateway/python/a01_execution_worker.py:390-508 | The recovery carries on exactly the overdue leases that it can, each under the next fence and generation with its old attempt fenced off, and keeps all other rows |
| `ExecutionWorker.ExecutionWorker.BeginsExactly` | control-gateway/python/a01_execution_worker.py:833-891 | A fresh attempt begins exactly on a pending or dispatched dispatch of a live lease in time that this worker has already or nobody has |
| `ExecutionWorker.ExecutionWorker.RenewExecutionLease` | control-gateway/python/a01_execution_worker.py:295-347 | Renews only for the live lease and the current generation, owner and attempt |
| `ExecutionWorker.ExecutionWorker.StageOwnedResult` | control-gateway/python/a01_execution_worker.py:693-743 | Stages only once, for the live lease and the current attempt |
| `ExecutionWorker.ExecutionWorker.RecordAuthorityLost` | control-gateway/python/a01_execution_worker.py:671-691 | Fences the attempt of the context if it still is the running one |
| `ExecutionWorker.ExecutionWorker.CommitStagedResult` | control-gateway/python/a01_execution_worker.py:778-823 | Both transactions of the commit, or no change |
| `ExecutionWorker.ExecutionWorker.ConsumeDispatch` | control-gateway/python/a01_execution_worker.py:833-891 | Answers a final row as it is and commits a staged one. A fresh attempt ends the dispatch exactly when it begins and, whatever others did while the executor ran, comes back with both fences before the lease runs out, saw no loss of authority, and reports nothing as completed that an evaluator must complete: SUCCEEDED if the executor returned under its own run, else FAILED, with exactly its result; a worker that lost its authority leaves no row in progress that is its own |
| `ExecutionWorker.Undisturbed` | control-gateway/python/a01_execution_worker.py:847-859 | If nobody else moves meanwhile, the worker comes back with both fences and a lease of the full renewed length |
| `WorkerRuns.RunsKeepRight` | control-gateway/python/a01_execution_worker.py:833-859 | Whatever run of all actors goes on while an executor is at work leaves tables that meet what the worker assumes |
| `WorkerRuns.OneClaimPerKey` | tools/second_shift_supervisor_v2.py:322-327 | An idempotency key is used by one claim for ever, over any run |
| `ExecutionWorker.ExecutionWorker.RecoverLocalClaims` | control-gateway/python/a01_execution_worker.py:390-508 | The loop ends as specified over the live claims and cannot fail |
| `ExecutionWorker.ExecutionWorker.Recover` | control-gateway/python/a01_execution_worker.py:512-541 | Afterwards no live lease is overdue and no result of a stale lease is unfinished |
| `AutomationOrder.Order` | tools/automation_plan.py:86-94 | Under the checks of `_normalize` the order fails exactly on a cycle; otherwise it lists every step once, sorted by the length of the longest dependency chain and then by sequence number |
| `AutomationOrder.ReadyHasDepth` | tools/automation_plan.py:89 | The steps taken in round k are exactly those whose longest chain has k edges |
| `AutomationOrder.StuckIsCyclic` | tools/automation_plan.py:90 | If no remaining step is ready, the graph has a cycle |
| `AutomationOrder.ChainIsWalk` | tools/automation_plan.py:79-83 | A chain of n dependencies is a walk of n edges in the dependency graph |
| `BookSafety.FollowingFinishes` | system-master/book-system/book-lifecycle-state-machine.js:446-468 | From every reachable state, following the calculated steps ends in a complete book |
| `BookSafety.StepMakesProgress` | system-master/book-system/book-lifecycle-state-machine.js:446-468 | The calculated step is accepted by its operation, closing validation included, and decreases the measure (open phases, work in the first of them) |
| `BookSafety.NeverWaits` | system-master/book-system/book-lifecycle-state-machine.js:446-463 | WAIT_FOR_PREREQUISITE is never answered in a reachable state |
| `BookSafety.ClosingNeverFails` | system-master/book-system/book-lifecycle-state-machine.js:243-255 | The validation at the end of `mutate` never rejects what the checks of an operation let through |
| `BookSafety.RefreshedAtFrontier` | system-master/book-system/book-lifecycle-state-machine.js:141-161 | Readiness is given exactly to the first open phase, if it is pending |
| `BookSafety.ReceiptsKept` | system-master/book-system/book-lifecycle-state-machine.js:333-342 | No completion receipt is lost: a completed phase that is given up keeps it as superseded |
| `BookSafety.StatusHasGrounds` | system-master/book-system/book-lifecycle-state-machine.js:172-212 | In every reachable state a completed phase has gate, receipt, the current source and all required values, a blocked one blockers, a cancelled one a checkpoint, a stale one a reason |
| `BookEffects.NextStepMeans` | system-master/book-system/book-lifecycle-state-machine.js:446-468 | The calculated step is what the first open phase asks for: first what stands in its way, then the first missing input, decision, start and operation in this order, then its completion; it is LIFECYCLE_COMPLETE exactly if no phase is open |
| `BookEffects.ReopenEffect` | system-master/book-system/book-lifecycle-state-machine.js:354-371 | Reopening makes the phase READY with one reopening more and its receipt superseded, and gives up every later phase that was begun, as stale by it |
| `BookEffects.StaleEffect` | system-master/book-system/book-lifecycle-state-machine.js:333-352 | Marking gives up exactly the phase, or it and all later ones that were begun, for the given reason |
| `BookEffects.InvalidateEffect` | system-master/book-system/book-lifecycle-state-machine.js:433-444 | An event gives up exactly the phases that its rule names, or those from the given one on |
| `BookEffects.ProfileEffect` | system-master/book-system/book-lifecycle-state-machine.js:399-431 | Under a new profile added phases wait, dropped ones are given up, and others are stale exactly if a phase before them was added |
| `BookEffects.ProgressEffect` | system-master/book-system/book-lifecycle-state-machine.js:265-284 | Exactly the given values are added to the record, each once, and nothing else changes |
| `BookEffects.CreateEffect` | system-master/book-system/book-lifecycle-state-machine.js:214-241 | A new book is made exactly for an accepted profile; its phases wait untouched, the first of them READY |
| `BookMachine.Mutate` | system-master/book-system/book-lifecycle-state-machine.js:243-255 | Runs any operation between the two validations, as specified |
| `BookMachine.RecordPhaseProgress` | system-master/book-system/book-lifecycle-state-machine.js:265-284 | Accepted exactly for known values of a READY, ACTIVE or BLOCKED phase; then exactly these values are added |
| `BookMachine.CompletePhase` | system-master/book-system/book-lifecycle-state-machine.js:295-311 | Accepted exactly for a valid book with the phase READY or ACTIVE and all inputs and decisions recorded; the phase then has gate, receipt and current source and is otherwise as before, and the other phases change only by readiness of the first open one |
| `BookMachine.ReopenPhase` | system-master/book-system/book-lifecycle-state-machine.js:354-371 | Accepted exactly for a reopenable phase in a status that can be reopened; the phase is READY again with its receipt superseded, what comes after it and was begun is stale by it, and what is before it is kept |
| `BookMachine.MarkPhaseStale` | system-master/book-system/book-lifecycle-state-machine.js:344-352 | Accepted for every known phase: gives it up, and on demand all later ones that were begun |
| `BookMachine.StartThePhase` | system-master/book-system/book-lifecycle-state-machine.js:286-293 | Accepted exactly for a READY phase, which is ACTIVE on the current source then; the others change only by readiness |
| `BookMachine.BlockPhase` | system-master/book-system/book-lifecycle-state-machine.js:313-322 | Accepted exactly for a READY or ACTIVE phase with different blockers, which are stored |
| `BookMachine.UnblockPhase` | system-master/book-system/book-lifecycle-state-machine.js:324-331 | Accepted exactly for a BLOCKED phase, which is READY without blockers then |
| `BookMachine.CancelPhase` | system-master/book-system/book-lifecycle-state-machine.js:373-382 | Accepted exactly for a phase that was begun and is not complete, which keeps its record and gets the checkpoint |
| `BookMachine.RecoverThePhase` | system-master/book-system/book-lifecycle-state-machine.js:384-397 | Accepted exactly for a valid book with the phase STALE, CANCELLED or RECOVERY_REQUIRED, the current source, and its checkpoint if it has one; the phase is then READY without checkpoint, reason and blockers and otherwise as before, and the other phases change only by readiness of the first open one |
| `BookMachine.ReprofileLifecycle` | system-master/book-system/book-lifecycle-state-machine.js:399-431 | Accepted exactly for an accepted profile: newly applicable phases wait, dropped ones keep their receipts as superseded, and what follows a new one is stale |
| `BookMachine.ApplyInvalidationEvent` | system-master/book-system/book-lifecycle-state-machine.js:433-444 | Accepted exactly for a known event with the target that it needs: gives up the phases of the rule, or those from the dynamic target on, and keeps the others |
| `BookMachine.CreateLifecycleState` | system-master/book-system/book-lifecycle-state-machine.js:214-241 | Made exactly for an accepted profile: untouched phases, the first applicable one READY |
| `BookMachine.Draft.RefreshReadiness` | system-master/book-system/book-lifecycle-state-machine.js:150-161 | The loop readies the first waiting phase if all before it are done |
| `BookMachine.Draft.ReprofilePhases` | system-master/book-system/book-lifecycle-state-machine.js:404-427 | The loop over the phases, and the first one that becomes applicable |
| `FileLeaseRuns.TakesAllOrNone` | control-gateway/src/github-system-file-lease.js:185-194 | An acquisition gives every requested path a new record with the next epoch in one commit, held from the time of the request until its time to live is over, none of them held by another at that time, and touches no other path |
| `FileLeaseEffects.KeepsOthersOut` | control-gateway/src/github-system-file-lease.js:185-189 | Within the time to live that an acquire call asked for, no later call takes one of its paths, until the path was released, provided that all requests ask for a positive time to live |
| `FileLeaseEffects.NextTaker` | control-gateway/src/github-system-file-lease.js:185-189 | Whoever takes a path over from a lease is another holder, and comes after the time to live that the lease asked for |
| `FileLeaseEffects.AttemptMeans` | control-gateway/src/github-system-file-lease.js:182-195 | An attempt repeats the receipt exactly if all paths are held by the request already and run, takes all of them in one commit exactly if all are free, and else fails |
| `FileLeaseEffects.ReleaseMeans` | control-gateway/src/github-system-file-lease.js:222-243 | An attempt of release is a replay exactly if all leases were released so, releases all with their events exactly if all are still held and no event conflicts, and else fails |
| `FileLeaseEffects.AnswerMeans` | control-gateway/src/github-system-file-lease.js:195-200 | A call whose update was applied succeeds when it is answered, or when it finds its commit at the head, and else tries again until its last try |
| `FileLeaseEffects.AuthorityMeans` | control-gateway/src/github-system-file-lease.js:207-217 | A receipt carries authority exactly while the target stands at the predecessor, every leased path has the very record of the lease, and none has expired |
| `FileLeaseRuns.ReceiptsAreDurable` | control-gateway/src/github-system-file-lease.js:195-205 | A returned receipt names a commit in the history of the head, for ever, that holds exactly its leases |
| `FileLeaseRuns.FencedForEver` | control-gateway/src/github-system-file-lease.js:207-232 | Once a leased path has another record, the receipt never passes `requireAuthority` again and `release` never releases for it again; after a later epoch `release` always fails as fenced |
| `FileLeaseRuns.RevisionsCountReleases` | control-gateway/src/github-system-file-lease.js:80-84 | `path_revision` is the number of release events stored for the path |
| `FileLeaseRuns.RaisesOnceUnlessReleased` | control-gateway/src/github-system-file-lease.js:181-200 | Under any lost, late or falsely failed updates, two commits of one acquire call in the history have a release of every requested path between them |
| `FileLeaseRuns.SecondRaise` | control-gateway/src/github-system-file-lease.js:184-188 | A retrying call whose commit is already in the history raises every requested epoch a second time exactly when no requested path is held by its holder or locked, and then all were released in between |
| `FileLeaseOnce.RaisesOnceExactly` | control-gateway/src/github-system-file-lease.js:181-200 | Over all runs with lost, late and falsely failed updates, a call raises the epochs of its paths at most once if and only if it may try at most once |
| `FileLeaseCounterexample.EpochRaisedTwice` | control-gateway/src/github-system-file-lease.js:181-200 | For every request of a call with two or more attempts, a run in which it raises all its epochs twice |
| `FileLeaseRecovery.ScanIsExact` | control-gateway/src/github-system-file-lease.js:126-140 | The backward scan finds exactly the commit that introduced the record, if it is within the depth |
| `FileLeaseRecovery.RecoversHeld` | control-gateway/src/github-system-file-lease.js:142-163 | While the leases of an issued receipt are held, recovery succeeds if and only if one commit less than 10000 back introduced them all, and then returns the same lease entries and that commit |
| `FileLeaseRecovery.RecoversOwn` | control-gateway/src/github-system-file-lease.js:142-163 | For a receipt that a call got for its own commit, recovery returns that receipt, unless the commit lies 10000 or more back |
| `FileLeaseRecovery.RecoversReleased` | control-gateway/src/github-system-file-lease.js:164-173 | After the leases were released, in one call or several, recovery succeeds if and only if all stored release events name the same acquisition commit, and then returns the lease entries as they were acquired |
| `FileLeaseRecovery.RecoversOwnReleased` | control-gateway/src/github-system-file-lease.js:164-173 | A receipt that was itself released recovers unchanged however long ago that was, until its paths are taken again |
| `FileLeaseRecovery.RecoversMixed` | control-gateway/src/github-system-file-lease.js:150-155 | A set of which some paths are held and others released is refused |
| `FileLeaseRecovery.RecoversExactly` | control-gateway/src/github-system-file-lease.js:142-173 | Recovery gives the lease entries of an issued receipt back if and only if all are held and one near commit introduced them, or all were released for this result and the stored events name one commit |
| `FileLeaseRecovery.RecoversForItsHolder` | control-gateway/src/github-system-file-lease.js:142-174 | For any arguments, recovery answers only if the target stands at the result and every path was acquired by this very holder for this target and predecessor |
| `FileLeaseSplit.SplitIsRefused` | control-gateway/src/github-system-file-lease.js:142-173 | A run with a receipt, for two paths that were acquired one after the other, that recovery refuses while they are held and again after they were released |
| `FileLeaseRecovery.FindAcquisitionCommit` | control-gateway/src/github-system-file-lease.js:126-140 | The scan loop computes the specified commit |
| `FileLeaseRecovery.Recover` | control-gateway/src/github-system-file-lease.js:142-174 | The loop over the record set computes the specified receipt or refuses |
| `FileLeaseRuns.StepOk` | control-gateway/src/github-system-file-lease.js:176-246 | Every step of coordinators and network keeps the invariants of the history and only moves the head forward |
| `FileLeaseCoordinator.Remote.Acquire` | control-gateway/src/github-system-file-lease.js:176-200 | The retry loop is a run of the protocol among arbitrary moves of others, refused at once if the target moved; a receipt was issued, answers the request, and its leases run from the time of the request for its time to live, or still run if it is a replay |
| `FileLeaseCoordinator.Remote.Release` | control-gateway/src/github-system-file-lease.js:219-246 | The retry loop of a release is a run of the protocol, and when it reports success every lease was released with this result at a commit in the history of the head |
| `PublicationSafety.VerificationIsExact` | control-gateway/src/github-active-work-publication.js:162-184 | In any repository, verification accepts a head with n revisions exactly when it reads as revision n with a sound chain down to revision 1, within the limit |
| `PublicationEffects.VerifiesExactly` | control-gateway/src/github-active-work-publication.js:144-184 | In any repository, verification accepts n revisions exactly if there is a chain of n genuine envelopes, each published by a commit on top of the one before and mirrored there, within the limit |
| `PublicationEffects.ReconstructsExactly` | control-gateway/src/github-active-work-publication.js:186-203 | A reconstruction answers exactly the envelope at the head of such a chain with its length, while the ref did not move |
| `PublicationEffects.PlansExactly` | control-gateway/src/github-active-work-publication.js:205-224 | A publication is answered exactly for a packet of the chain on a ref that is as the caller expects; a packet that is at the head is not published again |
| `PublicationEffects.PublishMeans` | control-gateway/src/github-active-work-publication.js:226-243 | A new packet is one commit on top of the expected head, with the next revision, the digests of what it follows, and its mirror beside all earlier ones |
| `PublicationSafety.ReachableVerifies` | control-gateway/src/github-active-work-publication.js:162-184 | Every reachable head verifies, within the limit, with as many revisions as its number, and for each revision has exactly one mirror, the envelope of the verified chain |
| `PublicationSafety.PublishedForEver` | control-gateway/src/github-active-work-publication.js:229-243 | What was once the head is, unchanged, the mirror of its revision at every later head |
| `PublicationSafety.EqualDigestsEqualChains` | control-gateway/src/github-active-work-publication.js:66-68 | With collision-free digests, equal publication digests mean equal envelope chains, even across repositories |
| `PublicationSafety.PublishReconstructs` | control-gateway/src/github-active-work-publication.js:205-253 | A publication that arrives in time reconstructs to the packet that was written |
| `PublicationSafety.VerifyChain` | control-gateway/src/github-active-work-publication.js:162-184 | The loop computes the specified answer, with the same first failing check |
| `Publisher.Remote.PublishPacket` | control-gateway/src/github-active-work-publication.js:205-253 | Whatever others and the network do meanwhile, a publication is reported as written exactly if the ref is found at the new commit and stays there while it is verified, within the limit, and then is the unchanged mirror of its revision; a packet that was at the head already is answered as such |

## Left out

- SQLite, its journal and the schema migrations: a transaction is atomic and rolled back on an error; unique indexes and
  the claim-guard trigger are checks of the transactions that they concern.
- Hash functions, JSON encoding, UUIDs and random fences: see above; strings are taken as already trimmed.
- Time zones, ISO timestamps and the shift window: integer instants and an input that says whether the shift is open.
- Columns that no branch reads: `last_error`, `next_attempt_at`, `checkpoint_pointer`, `updated_at`, evidence directories, the
  circuits table, and event payloads beyond the failure, handoff and verdict data.
- Log entries that no transaction reads are written as the program writes them; stated again are those of grants, runs,
  heartbeats, handoffs, verdicts, terminal results and failures.
- The order of rows in a query (`ORDER BY`), except for the candidates of the night scheduler, whose order is proved.
- `pending_dispatches`, `snapshot` and the exports: reports that change nothing.
- `submit_worker_result` and `submit_evaluator_verdict` of the scheduler: a lookup before transactions that are modelled.
- `run_once`, the executors, process trees and the command lines of the worker: the executor's report is an input.
- ExecutionWorker.ExecutionWorker.ConsumeDispatch: others move while the executor runs; that they may also move between the
  short transactions before and after it is covered by the results over whole runs, not by the method.
- ExecutionWorker.ExecutionWorker.Recover: the scheduler's `reconcile` that follows is a transaction of its own and not part of
  the method, as after a commit.
- SecondShift.World: the four classes keep the invariants of their own tables and of the store's; that all tables keep them
  together under every interleaving is proved on the transaction functions.
- SupervisorStore.SupervisorStore.Beat: `progress` is a heartbeat with a payload that nothing reads.
- BookSpec.Contract: the profiles that `validateProfile` accepts are a given set, and the fixed contract file is a parameter;
  lifecycle identity, timestamps and the sealed digest are constant or derived and not modelled.
- GitHub REST transports, authentication and error classification: the remote repository is a value that others change.
- FileLeaseSpec.Commit: commits are numbered by creation; malformed JSON records are not modelled, since only coordinators
  write the branch.
- PublicationSpec.Packet: the packet rules of active-work-state.js are not part of this model.
- Admission checkers, issue ingress, chat and calendar planners, website and audiobook builders: long equality checks or file
  copying, with easy claims.
