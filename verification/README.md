# A verified model of the resilience benchmark's control logic

The benchmark runs agents against injected faults. This project models the parts of it that keep
state and must not go wrong, and proves what they promise:

- **Run control** (`RunContracts`, `RunLog`, `RunStore`, `RunHistory`, `RunLink`, `RunService`, `Timestamps`):
  the run row, the append-only event log, the mutation lease and the worker leases, under any
  sequence of store transactions, and the mirror files that follow them.
- **Checkpointed workflows** (`RunControl`, `ExecutionPlan`, `ExecutionWorkflow`,
  `DiscoveryWorkflow`, `WholeRun`, `Iteration`): discovery and execution of one run, killed or
  aborted at any durable step. A `Run` object stands for the run's row and artifacts; its
  `schedule` says where a call is killed or an operator abort arrives. `RunLink` proves that its
  row steps are the store's transactions and lose nothing of them.
- **Audit bridge** (`AuditBridge`, `Framing`): the per-call records shared by handler threads, as
  atomic steps in any interleaving, and the newline framing under them.
- **Levels and scores** (`Labels`, `Builder`, `Progression`, `Orchestrator`, `Scoring`,
  `Efficiency`, `ScoreAgreement`): building an episode, spending its attempts, judging the result.
- **Fleet** (`Planner`, `FleetTables`, `Dispatcher`, `InFlight`, `Capacity`): placing a batch on slots, and dispatching,
  polling and retrying its items.
- **Disturbances** (`SafetyGate`, `Injector`, `TelemetryRules`, `TelemetryHook`): the injector, its
  gate, and the telemetry rules that travel through a directory.

Classes mirror the source's stateful objects. Each of their methods is proved equal to a function of
the state before it, and the laws are lemmas about those functions and about sequences of calls.
Collaborators outside the model (stage runners, callbacks, Controllers, adapters, evaluators,
shuffles, clocks) are parameters that may behave arbitrarily.

## Where the code and what is said about it differ

The model follows the code.

- The scheduler's header promises to keep at most `max_concurrency` items in flight
  (fleet_service/scheduler.py:3-7). The dispatcher reads the cap from rows whose query leaves the
  request out (fleet_service/store.py:190-193), so it starts whatever it can: a pass stays within a
  cap, whatever the Controllers answer and whichever slots are chosen, exactly when the most it can
  reach does (`CapHoldsExactlyWhen`). That is what is in flight, and the lesser of the idle slots and
  of the items they can take: every unpinned one, and of each namespace as many pinned ones as it has
  idle slots (`Reach`). A batch that asked for one at a time gets two (`CapOfOneIsExceeded`). The loop
  would keep a cap it could read (`ReadCapWouldHold`).
- "Exactly one message per connection" (mcp_servers/audit_bridge.py:122-126) is enforced only when
  surplus bytes arrive in the read that brings the newline. `FirstLineOutcome` says which reads those
  are, and `SurplusIsSeenOnlyWithinOneRead` that, when no piece is longer than a read, the surplus is
  refused exactly when no piece ends with the newline.
- Folding a run's log rebuilds its row at every moment of a history exactly when no append that
  `append_event` accepted used one of five event names, compared as text, except RUN_CREATED on a run
  that had not moved (`ReplayHoldsThroughoutExactlyWhen`). A replay gone wrong may come right again
  (`WrongReplayMayMend`).
- The terminal reason `episode_retry_budget_exhausted` is never the progression controller's own,
  but a caller that skips a level may supply that text: `BudgetErrorsAreUnreachable`.
- Completeness can fall when a further level passes, once as many levels passed as the episode has.
  `OneMoreResultCostsExactlyWhen` says for which results it does, `ExtraResultsHelpExactlyWhile` that
  there are such results exactly when no level is missing any more, and `AnExtraLevelCanHurt` shows a pair.
- The deferral limit of 30 upstream refusals bounds waiting only within one unbroken run of them: a
  slot still warming up starts the count again at no cost, and a requeued item keeps its count, so
  that each further refusal costs a retry at once. `RefusalsFailExactlyWhen` gives the exact cost.
- A busy item without a run id is stuck: an Assigned one whose submission never came, and a Running
  one whose Controller gave no run id (`BusyWithoutRunIsStuck`, `RunningWithoutRunIsReached`).
- A stop is not final. An item whose stop was asked for is queued again when its Controller cannot be
  read and a retry is left (fleet_service/scheduler.py:289-292). Its batch is no longer dispatched, so
  the item waits there and the batch never completes (`RerunExactlyWhen`, `StoppedItemMayBeRequeued`).
- An empty list of phases given to `claim_next_run` selects all phases, so its error for an empty
  list cannot occur.

## Model

| member | source | states |
|---|---|---|
| RunContracts.RowMachine | controller/run_store.py:240-373 | over any calls from any valid row: desired status is set exactly while CLEANING_UP and then fixed, terminal status is the desired one or RESET_FAILED and freezes the row, revision never exceeds 12 |
| RunContracts.ActMovesAlongEdges | controller/run_contracts.py:59-74 | a phase is left only along an allowed edge or by the jump to CLEANING_UP, and every change costs one revision |
| RunContracts.TwelveRevisionsAreReached | controller/run_contracts.py:59-74 | the bound 12 is attained by the longest approved run |
| RunLog.MaxSequenceCounts | controller/run_store.py:591-626 | while a run's events are numbered from 1, the highest number is their count, so the next number leaves no gap |
| RunLog.NamesAreTexts | controller/run_store.py:208-238 | event types and the texts an event is appended under correspond one to one, named type or not |
| RunLog.SignificantTexts | controller/run_store.py:208-238 | exactly five texts name the types a replay reads, whoever appends them |
| RunStore.RunStore.CreateOrGet | controller/run_store.py:137-179 | a request id names one run: a repeated request returns it, a different spec for it is refused, anything else opens a fresh logged run |
| RunStore.RunStore.AppendEvent | controller/run_store.py:208-238 | one more event carrying the row's phase and terminal status, or refused with nothing written |
| RunStore.RunStore.Transition | controller/run_store.py:240-274 | along an allowed edge with one revision and one event, otherwise refused with the reason and nothing changed |
| RunStore.RunStore.RequestCleanup | controller/run_store.py:276-327 | the jump to CLEANING_UP, the silent repeat, the conflicting status, and the abort flag that may change without an event |
| RunStore.RunStore.FinishCleanup | controller/run_store.py:329-373 | ends the run with the desired status or RESET_FAILED and drops its own lease only |
| RunStore.RunStore.AcquireMutationLease | controller/run_store.py:375-432 | granted unless another run's lease is unexpired or the run is terminal; a live holder keeps its acquisition time |
| RunStore.RunStore.ReleaseMutationLease | controller/run_store.py:448-471 | removes and logs exactly the run's own lease |
| RunStore.RunStore.ClaimNextRun | controller/run_store.py:473-540 | drops expired worker leases, then claims some oldest run that is live, in a selected phase and unclaimed, if there is one |
| RunStore.RunStore.RenewWorkerLease | controller/run_store.py:542-574 | extends exactly an unexpired lease of that worker on that run |
| RunStore.RunStore.ReleaseWorkerLease | controller/run_store.py:576-583 | removes exactly that worker's lease on that run |
| RunHistory.HistoryIsConsistent | controller/run_store.py:240-373 | in every history: events numbered 1..n without gaps, logged phases follow allowed edges or the jump and end at the row's phase, rows valid, request ids distinct, no lease on a terminal run |
| RunHistory.EventsAreNeverAltered | controller/run_store.py:591-626 | an earlier event table is a prefix of every later one |
| RunHistory.TerminalRunIsFrozen | controller/run_store.py:329-373 | after termination no operation changes the row, and its revision is at most 12 |
| RunHistory.LogRebuildsRow | controller/run_store.py:240-373 | folding a run's log rebuilds phase, terminal status, desired status and revision while no caller appends under one of five texts (`RunLog.SignificantTexts`) |
| RunHistory.ReservedNameBreaksReplay | controller/run_store.py:208-238 | one append under any text the check lets through keeps the replay right exactly when the text is none of those five, or is RUN_CREATED on a run that never moved |
| RunHistory.ReplayHoldsThroughoutExactlyWhen | controller/run_store.py:208-373 | over every history, replay has given every row at every moment exactly when every turn was harmless in that sense |
| RunHistory.WrongReplayMayMend | controller/run_store.py:208-238 | RUN_CREATED and then PHASE_TRANSITIONED appended to a run that moved once make its replay wrong and then right again |
| RunHistory.MutationLeaseExcludes | controller/run_store.py:375-471 | under a non-decreasing clock, when a mutation lease is granted the latest grant to any other run has expired or was removed |
| RunHistory.WorkerLeaseExcludes | controller/run_store.py:473-583 | the same between workers of one run, through claim, renew and release |
| RunHistory.AtMostOneLiveGrant | controller/run_store.py:375-583 | at no moment do two runs hold unexpired mutation grants, nor two workers unexpired grants on one run |
| RunLink.TransactionsAreRunSteps | controller/run_store.py:240-373 | every transaction changes a run's row as the matching step of the one-run model does, with the same answer, and no other row |
| RunLink.RunStepsAreTransactions | controller/run_store.py:240-373 | every step of the one-run model is a transaction of the store on any tables that hold the run, with that answer and that row |
| RunLink.HistoryIsARun | controller/run_store.py:137-373 | over every history of the store a run's row is what its own steps make of a fresh row |
| RunLink.LeaseAnswers | controller/run_store.py:375-432 | a lawful lease request of a known run is granted exactly when the run is live and no other run's lease is unexpired, is refused as held otherwise, and leaves every row alone |
| RunService.ArtifactJournal.Sync | controller/run_service.py:33-67 | refuses exactly a changed spec, otherwise rewrites the three files in order up to where it is killed |
| RunService.RunControlService.Serve | controller/run_service.py:123-285 | killed anywhere between its writes, a service operation leaves a mirror that never contradicts the store; the immutable-spec check never fails; an operation that is not killed leaves the run's mirror current |
| RunService.StepNeverLies | controller/run_service.py:33-67 | no store transaction makes an existing mirror wrong: its events stay a prefix of the log, a terminal state shown is the final one |
| Timestamps.TextOrderIsTimeOrder | controller/run_store.py:52-53 | for four-digit years the text order of two stored timestamps is their time order, also when only one has a fractional second, so text and datetime expiry tests agree |
| RunControl.Run.Record | controller/run_service.py:250-277 | file first, then event: a completed call leaves both, a kill between them only the file; a file that is there is replaced, and only replacing a stage's result can cost the run its evidence |
| RunControl.Run.Advance | controller/run_store.py:240-274 | moves from the phase it was called in along an allowed edge or raises, whatever the evidence; the run stays safe when the phase was earned, whatever abort came first |
| RunControl.Run.AskCleanup | controller/run_store.py:276-327 | asks cleanup for any status, or finds an operator's abort or the ended run in its place; the run stays safe when the artifacts deserve the status |
| RunControl.Run.CloseCleanup | controller/run_store.py:329-373 | refused exactly before cleanup was asked for, otherwise ends the run with the desired status or RESET_FAILED; the run stays safe unless it claims a cleanup that was not verified |
| RunControl.Run.Abort | controller/run_service.py:162-170 | accepted unless another cleanup status stands; an abort before cleanup fixes ABORTED as the desired status |
| ExecutionPlan.WritesRunOut | controller/execution_workflow.py:83-289 | every planned write lowers a measure, so a run of the workflow comes to rest |
| ExecutionPlan.FailureIsNotedThenAsked | controller/execution_workflow.py:189-210 | a stage failure is written down first and then turned into cleanup with FAILED |
| ExecutionPlan.IterateEnds | controller/execution_workflow.py:83-289 | from any valid row the planned writes end after at most the measured number |
| ExecutionPlan.OneEnd | controller/execution_workflow.py:83-289 | wherever the writes are cut and resumed, the state they end in is the same |
| ExecutionPlan.WritesKeepVerdict | controller/execution_workflow.py:92-188 | no planned write changes the terminal status the decision table reads off the reports |
| ExecutionPlan.VerdictIsReached | controller/execution_workflow.py:92-188 | the terminal status at rest is the one of the decision table over baseline, execution, recovery, evaluation, scoring and cleanup |
| ExecutionWorkflow.ExecutionWorkflow.RunOrLoad | controller/execution_workflow.py:267-289 | a stage runs only while its artifact is not recorded, and its report is recorded before it is used |
| ExecutionWorkflow.ExecutionWorkflow.RequestAndFinish | controller/execution_workflow.py:239-252 | asks cleanup once and ends the run |
| ExecutionWorkflow.ExecutionWorkflow.FinishRun | controller/execution_workflow.py:254-265 | loads the cleanup report or verifies the cleanup, and a completed call has ended the run with the desired status if that report is verified, with RESET_FAILED if not |
| ExecutionWorkflow.ExecutionWorkflow.Handle | controller/execution_workflow.py:189-210 | after any exception of a stage a completed call has ended the run, and without aborts a call that is not killed leaves nothing to do |
| ExecutionWorkflow.ExecutionWorkflow.Process | controller/execution_workflow.py:83-211 | without aborts its writes are a prefix of the planned ones, all of them unless killed; with aborts the run stays safe |
| ExecutionWorkflow.ProcessUntilFinished | controller/execution_workflow.py:83-289 | crash equivalence: killed at any durable step any number of times and then let finish, row, artifacts and terminal status are those of one uninterrupted call, and no recorded stage is executed again |
| DiscoveryWorkflow.DiscoveryWorkflow.Process | controller/discovery_workflow.py:177-250 | killed or aborted anywhere, discovery leaves a safe run, asks only for a status its findings justify, and lets go on only a qualified run whose locked episode is recorded |
| DiscoveryWorkflow.DiscoveryWorkflow.Qualify | controller/discovery_workflow.py:317-427 | a completed call goes on to baselining or approval, as the run asks, with every locked artifact recorded exactly when the run executes and its qualification passed; otherwise it has ended the run |
| DiscoveryWorkflow.DiscoveryWorkflow.Terminate | controller/discovery_workflow.py:429-446 | ends the run with the given status or an operator abort that came first, never completing an execution |
| WholeRun.Lifecycle | controller/execution_workflow.py:92-188 | whole-run safety over any sequence of workers, approvals, aborts and kills: COMPLETED only on qualified baseline, verified recovery, independent evaluation, PASS twice and verified cleanup; an abort accepted before cleanup ends ABORTED or RESET_FAILED |
| WholeRun.DiscoverAndExecute | controller/execution_workflow.py:83-211 | a run discovered, approved and executed by workers killed at any step ends as what it was handed over as decides, and repeats no recorded stage |
| AuditBridge.AuditBridgeListener.OpenDelivery | mcp_servers/audit_bridge.py:432-443 | the locked check: unknown call, conflicting replay, repeated acknowledgement, delivery in progress, or the one that opens the delivery and fixes the fingerprint |
| AuditBridge.AuditBridgeListener.Settle | mcp_servers/audit_bridge.py:446-455 | after the callback: acknowledged for good on success, open to the same result on failure |
| AuditBridge.BridgeInvariant | mcp_servers/audit_bridge.py:380-457 | every interleaving of handler threads keeps threads, records and facts in agreement |
| AuditBridge.ExactlyOnceDelivery | mcp_servers/audit_bridge.py:380-457 | per call id at most one successful result callback, one fingerprint for all deliveries, an ack only after that success, and nothing ever granted to a denied call |
| AuditBridge.FailureAllowsOnlyTheSameResult | mcp_servers/audit_bridge.py:432-452 | after a failed callback the same result may be delivered again and any other is refused |
| AuditBridge.FingerprintIsFixed | mcp_servers/audit_bridge.py:436-443 | once a call has a fingerprint no step of any thread changes it |
| Framing.SendJson | mcp_servers/audit_bridge.py:106-110 | sends the line and its newline exactly when they fit the limit |
| Framing.RecvJson | mcp_servers/audit_bridge.py:113-131 | computes the reading function over the arriving pieces and never asks for zero bytes |
| Framing.Connection.Recv | mcp_servers/audit_bridge.py:116-116 | at most the asked number of bytes of the next piece, nothing only after the close |
| Framing.LineIsRead | mcp_servers/audit_bridge.py:113-131 | pieces that end at the newline deliver the line whatever follows |
| Framing.RoundTrip | mcp_servers/audit_bridge.py:106-131 | for every message and every split of its bytes, reading returns the message if sending accepts it and the size error if not: the two limits agree at the boundary |
| Framing.WhatReadingMeans | mcp_servers/audit_bridge.py:113-131 | a message is delivered only if its line stood first, whole and within the limit; every other stream is refused for the matching reason |
| Framing.FirstLineOutcome | mcp_servers/audit_bridge.py:113-131 | exactly what becomes of a first line that fits, for every split and whatever follows: delivered when a read ends with its newline, else refused, for the size when that read passes the limit and for the surplus when not |
| Framing.SurplusIsSeenOnlyWithinOneRead | mcp_servers/audit_bridge.py:122-126 | when no piece is longer than a read and the line is not within one read of the limit, surplus bytes are refused exactly when no piece ends with the newline |
| Labels.TrialIdIdentifies | progression/controller.py:118-119 | a trial id tells its level and attempt |
| Builder.ValidateEpisode | progression/builder.py:213-239 | accepts exactly the sound episodes, and blames a fault that is there |
| Builder.AllocateAttempts | progression/builder.py:263-271 | dealing attempts one at a time terminates with level i holding exactly 1 + (total - n + i) div n, summing to the total |
| Builder.SharesAreLevel | progression/builder.py:263-271 | budgets never decrease from level to level and differ by at most one |
| Builder.RecommendedNamesAllOnce | progression/builder.py:248-251 | for every fault type the recommended order names all eight disturbance types once |
| Builder.LevelsOnlyAdd | progression/builder.py:242-245 | each level's disturbance types are a prefix of the next level's |
| Builder.DisturbanceIdIdentifies | progression/builder.py:129-131 | a disturbance id tells its level, place and type |
| Builder.BuildEpisode | progression/builder.py:89-174 | refused for the first of five reasons, else exactly the planned levels, which its own final validation always accepts |
| Progression.ProgressionController.StartTrial | progression/controller.py:102-134 | equals the start function, and the checkpoint equals the state afterwards |
| Progression.ProgressionController.RecordResult | progression/controller.py:136-215 | equals the record function in all its branches, and the checkpoint equals the state afterwards |
| Progression.RoomInLevelIsRoomInEpisode | progression/controller.py:111-117 | while a level has attempts left so has the episode |
| Progression.StartIsNeverShort | progression/controller.py:102-117 | a trial is refused only because the episode ended or one is open, never for a spent budget |
| Progression.EveryRunIsAccounted | progression/controller.py:102-235 | over every sequence of calls: no level overspends, the total is the sum of the levels and the history plus the open trial, levels are settled in order, trial ids never repeat, the status agrees with the levels |
| Progression.BudgetErrorsAreUnreachable | progression/controller.py:102-215 | from a fresh start both exhaustion errors are dead and the episode-exhausted reason appears exactly when a skipping caller supplies that text |
| Progression.LevelsAreTakenInOrder | progression/controller.py:160-213 | later levels untouched, earlier ones passed or, when continuing after failure, failed with their budget spent |
| Progression.VerdictAgreesWithLevels | progression/controller.py:160-213 | an ended episode is PASS exactly when every level passed, FAIL exactly when some level failed and none was skipped |
| Progression.ReplayIsHarmless | progression/controller.py:147-154 | reporting a past trial again changes nothing and is accepted exactly when it repeats the recorded result |
| Progression.EndedStaysEnded | progression/controller.py:102-154 | an ended episode stays exactly as it ended |
| Orchestrator.MultiLevelOrchestrator.Conduct | progression/orchestrator.py:106-156 | whatever the runner does, the trial's injector is cleaned up: nothing stays active and each disturbance that needed it was cleaned once |
| Orchestrator.MultiLevelOrchestrator.RunTrial | progression/orchestrator.py:105-185 | one turn of the loop spends one attempt and adds one agreeing history entry, or stops on the adapters' own fault |
| Orchestrator.MultiLevelOrchestrator.Run | progression/orchestrator.py:103-193 | ends after at most the unspent budget of trials, with one result per trial; only an injector factory or evaluator that raises, or an answer for another trial or with an unknown status, stops it early |
| ScoreAgreement.VerdictAgreesWithScore | progression/orchestrator.py:103-193 | in both failure modes a fresh run ends PASS exactly when scoring counts every level as passed, completeness is 1 exactly when moreover all passes were first attempts, and no level passes twice |
| ScoreAgreement.ScoreSeesThePasses | scoring/calculator.py:38-46 | scoring keeps exactly the passed levels, each with the attempt of its one pass |
| Scoring.CalculateCompleteness | scoring/calculator.py:24-54 | errors exactly for no levels or an unusable passing result; otherwise best attempts, credit mean and share as specified, with clips that change nothing |
| Scoring.PassesCount | scoring/calculator.py:38-46 | the kept attempt of a level is the least of its passing results, and only passed levels are kept |
| Scoring.CompletenessIsCreditPerLevel | scoring/calculator.py:47-54 | completeness is the sum of 1/best-attempt over the total levels exactly while no more levels passed than there are |
| Scoring.OrderDoesNotMatter | scoring/calculator.py:38-46 | only which results were reported matters, not in what order or how often |
| Scoring.ExtraResultsNeverHurt | scoring/calculator.py:24-54 | extra results never lower completeness while no more levels pass than there are |
| Scoring.OneMoreResultCostsExactlyWhen | scoring/calculator.py:24-54 | a further result lowers completeness exactly when it passes a new level although enough levels have passed, and its attempt times the credit so far exceeds the number of levels passed |
| Scoring.ExtraResultsHelpExactlyWhile | scoring/calculator.py:24-54 | no further result lowers completeness exactly while fewer levels passed than the episode has |
| Scoring.AnExtraLevelCanHurt | scoring/calculator.py:47-54 | a concrete pair of results, the longer with the lower completeness |
| Scoring.FullCompleteness | scoring/calculator.py:47-54 | completeness is 1 exactly when enough levels passed, all on the first attempt |
| Efficiency.NormalizeEfficiency | scoring/calculator.py:57-97 | errors exactly for bad keys or bad metrics; otherwise every record's mean grade under its key and nothing else |
| Efficiency.RescalingKeepsEfficiency | scoring/calculator.py:86-97 | a positive affine change of one metric's units changes no score |
| Efficiency.DominanceIsRespected | scoring/calculator.py:86-97 | a record at least as good in everything it measured scores at least as well |
| Efficiency.FullScoreMeansUnbeaten | scoring/calculator.py:86-97 | a full score belongs exactly to records nobody beats in anything they measured |
| SafetyGate.ControllerDisturbanceSafetyGate.Authorize | controller/disturbance.py:50-84 | allowed exactly when no objection is justified, and the reasons are exactly the justified ones |
| SafetyGate.MutationNeedsIdleTarget | controller/disturbance.py:68-73 | a mutating disturbance is only allowed when none is active |
| Injector.DisturbanceInjector.ProcessEvent | disturbances/injector.py:264-275 | refuses another run's event, else counts the tool call and passes once over the specs in order |
| Injector.DisturbanceInjector.Execute | disturbances/injector.py:344-439 | rejected, failed or completed as gate and adapter decide, with the matching records |
| Injector.DisturbanceInjector.CleanupAll | disturbances/injector.py:295-318 | attempts every pending cleanup in reverse order even when some fail, and leaves none |
| Injector.InjectorAccounts | disturbances/injector.py:264-439 | over every run each disturbance fires at most once, what needs cleaning is pending or was cleaned once, and at most one mutating disturbance awaits cleanup |
| Injector.CleanupSettlesEverything | disturbances/injector.py:295-318 | after a cleanup every debt of the whole run has had its one cleanup |
| Injector.CleanupsRunInReverse | disturbances/injector.py:297-317 | the cleanup records are the pending ones, last started first, each with its own outcome |
| Injector.OccurrencesAreCalls | disturbances/injector.py:267-268 | the counters are the calls of each tool in this run and level |
| Injector.ToolSequenceFiresAtItsMoment | disturbances/injector.py:324-342 | a tool-sequence disturbance has fired exactly when the nth call of its tool happened in its phase |
| Planner.PlanBatch | fleet_service/scheduler.py:162-210 | plans exactly when pins are ready slots and there is a slot for unpinned items, blames the first failing pin otherwise, and returns the sorted greedy placement |
| Planner.Concurrency | fleet_service/scheduler.py:177-177 | at least one and at most the ready slots |
| Planner.SortedSorts | fleet_service/scheduler.py:209-210 | the returned list is in order of wave, then request order |
| Planner.EveryPlanIsSound | fleet_service/scheduler.py:162-210 | every item exactly once, no slot and wave twice, consecutive waves from 0 on each slot, pins honoured, the rest on the chosen usable slots |
| Planner.GreedyIsOptimal | fleet_service/scheduler.py:200-208 | if any placement of the unpinned items on the usable slots fits in so many waves, so does the greedy one |
| Planner.PlanUsesFewestWaves | fleet_service/scheduler.py:162-210 | no placement of the unpinned items on the usable slots finishes in fewer waves than the plan |
| FleetTables.FleetStore.CreateBatch | fleet_service/store.py:164-179 | new queued items for a new batch id; a known one is reported and changes nothing |
| FleetTables.FleetStore.ClaimSlotForItem | fleet_service/store.py:239-253 | claims exactly a queued item and an idle slot, atomically |
| FleetTables.FleetStore.Batches | fleet_service/store.py:190-193 | one row per batch with its state and without its request |
| FleetTables.SlotExclusivity | fleet_service/store.py:239-253 | on every run of the fleet, across batches, no slot has two Assigned or Running items |
| FleetTables.BoundedReruns | fleet_service/scheduler.py:352-371 | platform retries never exceed the limit, attempts never the retries plus one, and a queued item has no unpaid attempt |
| FleetTables.TerminalItemsAreFrozen | fleet_service/scheduler.py:279-463 | Done, Failed and Invalid items never change again |
| FleetTables.RerunExactlyWhen | fleet_service/scheduler.py:286-371 | whatever the Controller answers about a run, its item is queued again exactly when a retry is left and the run was unreadable for good or ended by the platform's fault with no stop asked for; it goes on only as long as the Controller says so or may be asked again; a measured agent is never rerun |
| FleetTables.StoppedItemMayBeRequeued | fleet_service/scheduler.py:286-293 | an item whose stop was asked for is queued again by an unreadable answer, and then nothing but another stop or a claim moves it, so its batch is never completed |
| FleetTables.BusyWithoutRunIsStuck | fleet_service/scheduler.py:279-282 | an Assigned or Running item without a run stays as it is through any later steps, but for the submission owed to an Assigned one |
| FleetTables.RunningWithoutRunIsReached | fleet_service/scheduler.py:410-463 | a submission accepted without a run id makes such a Running item |
| FleetTables.InFlightIsOccupiedSlots | fleet_service/store.py:255-267 | the running count is the number of occupied slots |
| Dispatcher.BatchDispatcher.PollItem | fleet_service/scheduler.py:279-350 | asks the Controller exactly when there is a run and a slot, and files the answer in the matching branch |
| Dispatcher.BatchDispatcher.FinishFailed | fleet_service/scheduler.py:352-371 | voids and requeues a platform failure with a retry left, fails everything else |
| Dispatcher.BatchDispatcher.SubmitItem | fleet_service/scheduler.py:410-463 | started, deferred for a warming slot, deferred for an upstream condition, requeued, failed or invalid, as the answer and the counters say |
| Dispatcher.BatchDispatcher.RefreshBatchState | fleet_service/scheduler.py:465-475 | Completed exactly when every item is terminal, else Stopped on request, else running |
| Dispatcher.BatchDispatcher.DispatchBatch | fleet_service/scheduler.py:373-395 | skips stopped and completed batches, else passes over the queued items in order |
| Dispatcher.BatchDispatcher.DispatchQueued | fleet_service/scheduler.py:373-395 | dispatches every batch the query lists, one after the other |
| Dispatcher.BatchDispatcher.PollRunning | fleet_service/scheduler.py:267-277 | polls every Assigned or Running item of every batch and refreshes each batch |
| Dispatcher.BatchDispatcher.Tick | fleet_service/scheduler.py:262-265 | polls all, then dispatches all, and stays within the runs the fleet's laws are about |
| Dispatcher.AttemptCounts | fleet_service/scheduler.py:386-393 | the claim of a picked slot never fails, and one dispatch adds to the number in flight exactly what it starts |
| InFlight.CapHoldsExactlyWhen | fleet_service/scheduler.py:373-395 | a pass, with or without pins, keeps within a cap under every answer and choice exactly when the most it can reach does: what is in flight with the lesser of the idle slots and of the items they can take, namespace by namespace |
| InFlight.PassGrowsAtMost | fleet_service/scheduler.py:373-395 | no answers and no choice of slots take a pass beyond that |
| InFlight.PassCanReach | fleet_service/scheduler.py:373-408 | some choice of slots, with Controllers that take everything, takes it there |
| InFlight.WithoutPins | fleet_service/scheduler.py:373-395 | without pins that is the lesser of the idle slots and the queue, and every choice of slots gets there |
| Dispatcher.UncappedPassNeverStops | fleet_service/scheduler.py:384-385 | with cap 0 the pass never breaks off |
| Dispatcher.ReadCapWouldHold | fleet_service/scheduler.py:384-385 | had the cap been read, the pass would have kept to it |
| InFlight.CapOfOneIsExceeded | fleet_service/scheduler.py:373-395 | the fleet that has just taken a batch of two that asked for one at a time, with two ready slots, has two items in flight after dispatching it |
| Dispatcher.UpstreamIsWaitedOut | fleet_service/scheduler.py:428-450 | an item that meets only upstream refusals is given up on after exactly 30 + limit of them |
| Dispatcher.RefusalsFailExactlyWhen | fleet_service/scheduler.py:410-463 | over any sequence of warming and upstream refusals an item fails exactly when the refusals past the 29th of each unbroken upstream run outnumber its retries left |
| TelemetryRules.ValidationMeans | disturbances/telemetry_interceptor.py:130-163 | accepts exactly the runnable failure schedules and gaps and no other kind, and keeps their tool and their numbers |
| TelemetryRules.TelemetryDisturbanceRuleEngine.RegisterRule | disturbances/telemetry_interceptor.py:42-64 | adds a validated rule with count 0 and its event, or refuses for the first fault |
| TelemetryRules.TelemetryDisturbanceRuleEngine.RemoveRule | disturbances/telemetry_interceptor.py:66-72 | takes the rule out and logs it, if it is there |
| TelemetryRules.TelemetryDisturbanceRuleEngine.BeforeCall | disturbances/telemetry_interceptor.py:74-97 | counts the call for every schedule of the tool, logs every match, and fails by the earliest registered one, exactly when some rule is due |
| TelemetryRules.TelemetryDisturbanceRuleEngine.AfterCall | disturbances/telemetry_interceptor.py:99-116 | every gap rule of the tool takes its points out in turn and logs how many |
| TelemetryRules.RemoveMetricSlots | disturbances/telemetry_interceptor.py:166-175 | edits every series and returns exactly how many points went |
| TelemetryRules.DropsWhatIsScheduled | disturbances/telemetry_interceptor.py:166-175 | from a series exactly the scheduled positions that exist are dropped |
| TelemetryRules.NothingScheduledNothingDropped | disturbances/telemetry_interceptor.py:166-175 | a series is left alone exactly when nothing scheduled is in it |
| TelemetryRules.FailuresFollowTheSchedule | disturbances/telemetry_interceptor.py:74-97 | over any run, a failure rule has matched since its registration exactly the scheduled call numbers up to the number of calls of its tool, each once and in order |
| TelemetryHook.FileTelemetryRuleClient.RegisterRule | disturbances/file_telemetry_interceptor.py:29-60 | publishes valid rules, repeats harmlessly, refuses other content under the same identity |
| TelemetryHook.FileBackedTelemetryDisturbanceHook.SyncRules | disturbances/file_telemetry_interceptor.py:110-140 | loads the listing up to its first fault, then removes what has gone |
| TelemetryHook.FileBackedTelemetryDisturbanceHook.FlushEvents | disturbances/file_telemetry_interceptor.py:142-151 | appends every event past the offset to its own rule's log |
| TelemetryHook.FileBackedTelemetryDisturbanceHook.BeforeTool | disturbances/file_telemetry_interceptor.py:96-101 | sync, engine, flush, keeping cache, schedule and logs in agreement |
| TelemetryHook.FileBackedTelemetryDisturbanceHook.AfterTool | disturbances/file_telemetry_interceptor.py:103-108 | sync, gaps, flush, keeping the same agreement |
| TelemetryHook.SyncAgreement | disturbances/file_telemetry_interceptor.py:110-140 | a sync succeeds exactly on loadable listings, and then holds exactly the files present, old rules with their counts and new ones from 0 |
| TelemetryHook.EngineHoldsTheFiles | disturbances/file_telemetry_interceptor.py:110-140 | after a sync the engine holds a rule exactly when its file is present, with the file's content |
| TelemetryHook.TakenInMeansListed | disturbances/file_telemetry_interceptor.py:110-140 | after a call that got through, the rules taken in are those whose files that call's listing had |
| TelemetryHook.PublishedFilesLoad | disturbances/file_telemetry_interceptor.py:127-130 | what the client publishes fails a sync exactly when a rule was replaced between two syncs |
| TelemetryHook.CallIsGood | disturbances/file_telemetry_interceptor.py:142-151 | after a call every event of the engine stands in its own rule's log once and in order |
| TelemetryHook.LogsShowTheSchedule | disturbances/file_telemetry_interceptor.py:96-151 | end to end over any run of hook calls with any listings: after a call that got through, a failure rule's log file lists exactly the scheduled numbers among the calls of its tool since its file was taken in, each once and in order |

## Left out

- The sockets, peer credentials, file modes and endpoint checks of the audit bridge, and the client's straight-line `invoke`: only framing and the shared records are modelled.
- JSON, SHA-256 and the seeded generator: messages are lines with an inverse parser, hashes and digests are injective, shuffles and choices arbitrary.
- SQLite itself: each transaction is atomic; columns no property reads (`updated_at`, event details, `occurred_at`) are dropped.
- RunService.RunControlService.Serve: the mirror's three file writes are each atomic, and nothing else writes between a transaction and its sync.
- Two workers on one run after a worker lease expired: the workflow never renews it, so only exclusion of unexpired leases is proved.
- Artifacts and events: a file recorded just before a kill may stay without its event, because a resumed stage loads it and returns; Lifecycle proves the other direction.
- The second terminal check inside the workflow's exception handler (controller/execution_workflow.py:192-193), which one worker at a time cannot reach.
- ExecutionWorkflow.ProcessUntilFinished: assumes fixed stage outcomes and an available mutation lease, since a stage that answers differently when repeated has no single outcome to return to.
- WholeRun.Lifecycle: the COMPLETED clause is about execute-mode runs; a dry run completes without executing.
- Timestamps.TextOrderIsTimeOrder: years outside 1 to 9999 are not part of the format.
- Hidden-key search in the agent-visible task, replay seeds and the derived base task of an episode.
- Progression.BudgetErrorsAreUnreachable: checkpoints are those the controller saved itself; a hand-edited checkpoint may exhaust a budget.
- Orchestrator.MultiLevelOrchestrator.Run: resumes only without an open trial, as `start_trial` refuses one; preparation, finalisation and the runner's own report are opaque.
- Scoring.CalculateCompleteness: reals instead of floating point, no rounding to six places; the weighted final score and the safety score are single expressions.
- Planner.PlanBatch: sorting is by insertion, which yields the only list in that order because every item has its own place.
- FleetTables.SlotExclusivity: one dispatcher; a stop is atomic per item, so the stop endpoint racing a submission is not covered.
- Dispatcher.BatchDispatcher.DispatchQueued: items are read at their turn rather than from one snapshot per batch, the same thing with one dispatcher; slots do not change during a run; the candidate list takes the slots as already ordered by index.
- Run summaries, scores and failure texts: only the classification they lead to is kept; the 45-minute stop request to a Controller has no effect on the tables.
- Liveness of an item left Assigned and of unlimited warming deferrals, which the code does not promise.
- Injector.DisturbanceInjector.Execute: adapters are outcomes (none, raises, runs); evidence fields of the records are dropped.
- TelemetryHook.FileBackedTelemetryDisturbanceHook.SyncRules: files that are not valid JSON or lack a field are outside the model; the order in which vanished rules are removed is left open.
- Kubernetes, Helm, HTTP APIs, manifests, agents and the frontend.
