# Verified model of the scan platform's core

This project models the parts of the platform in which many steps interleave or an
index has to agree with a history, and proves what they keep.

* **Task lifecycle** (`Lifecycle`, `Runs`, `Carriers`, `Retries`, `Orderly`, `Repeats`,
  the `Clean*` modules, `Hanging`, `Progress`, `Refusal`, `Unending`, `Deliveries`,
  `Dormant` and `Listing`).
  Master, workers and reclaimers share the task table and one stream. `Lifecycle` is the
  transition system: every SQL statement and every queue call is one atomic step, tables
  are maps, the stream is the sequence of all entries with a cursor (what is delivered)
  and a pending set (what is not ACKed). *All runs* allow every
  interleaving, crashes, errors and reclaims. *Clean runs* (`CleanRuns`) take a
  submission, a dispatch and the closing of a scan as one move each, let worker steps
  interleave freely, and have no crash, no error outside the handler's own branches, no
  reclaim and no repeated targets; `CleanRuns.MoveIsRun` shows that they are runs.
* **The coroutines themselves** (`Runtime`, `Traces`, `Handler`, `Master`,
  `Maintenance`, `Logs`). The statements are methods on the shared state, and the worker's
  handler, the submission loop, the dispatcher, the closing loop and the reclaimer are
  written statement by statement, with arbitrary steps of everybody else in between.
  Each is proved to be an execution of the transition system in which it takes exactly
  the steps of its script; `Logs` says what that gives, in every log, by the time a
  delivery is acknowledged or a round is over.
* **Workflow graph and planning** (`Graph`, `Planner`, `Plans`): the cycle check, the
  recursive abort query, the loader's checks, the fan-out, its idempotency keys and what
  each planned entry holds.
* **Findings** (`Identity`, `Findings`, `FindingsHistory`, `Context`): which entity a
  finding describes, fingerprints, the batched write against a row-by-row form and against
  the history of calls, reports, and the values a tool reads from earlier findings.
* **Limiters** (`TokenBucket`, `SlidingWindow`) over `real`, with the clock as input.
* **Scope** (`Scope`, `Targets`, `Admission`): patterns, normalization, what it makes of
  the parts of a target, the decision, the two gates.

A crash or an unhandled error is the `Stop`/`Abandon` step of a coroutine. Tool runs,
scope answers, stale pages and clock readings are parameters. Hashes are taken to be
injective: `Planner.TaskId` is the tuple that is hashed, `Identity.Fingerprint` the text.
Address and network parsing, containment and IDNA are functions passed in
(`Scope.Library`), so every statement holds for whatever they answer.

Where the code and its own comments differ, the model follows the code:

* `platform/master/api.py:475-478` says a scan can never hang on a doomed branch. It can,
  in two ways. A capability refusal does not cascade, and an unmet gate holds its task
  (`Refusal.RefusalHangs`); `Hanging.HangsIff` says exactly which tasks hang so in clean
  runs. And an error that only stops the handler records no outcome, so the delivery comes
  back as often as the error recurs: a tool that needs an input file and finds nothing
  upstream, an address error in the scope gate, or any other uncaught one.
  `Unending.RaisesIff` says exactly when a claimed delivery ends so,
  `Unending.OpenUntilEnded` that the scan then stays open in all runs, and
  `Unending.InputErrorForEver` gives runs of any length.
* `platform/worker/main.py:325-326` says missing upstream data is dead-lettered without
  retry. The error is raised outside the `try` that does so (`Handler.BuildContext`).
* `platform/common/db.py:84` says a known key yields None. The code returns the id of the
  existing row, so a root is sent once per entry of the plan (`Repeats.RootSendsCounted`).
  Right after an undisturbed one some task has two live deliveries iff a root is listed twice
  (`Repeats.RepeatedRootsTwice`), that is, iff a target is repeated and a root step runs
  once per target (`Repeats.RootsRepeatIff`).
* `platform/common/scope.py:24-26` says anything but safe characters is rejected. `$` lets a
  final newline through (`Targets.NewlineSlipsThrough`). For ASCII input the comment is right
  iff the host that the cutting steps leave does not end in a newline, as it does when one
  stands right before the path, a port or a closing bracket (`Scope.SafeIffNoNewline`).
* `platform/common/scope.py:95-98` says scheme, port and path are stripped. A port behind an
  address with colons stays, with brackets around the address or without
  (`Targets.PortKept`), and whatever stands before the first `://` is taken for the scheme
  (`Targets.NormalizedLikeItsHost`).
* `platform/common/ids.py:33-38` offers the fingerprint as the identity of an entity. Two
  entities can share one if their types contain a bar: exactly if one type is the other,
  a bar and the start of a value (`Identity.FingerprintsIdentify`, `Identity.TypesConfused`).
* `platform/master/api.py:404` promises succeeded dependencies. That holds once their
  rows are there; a plan that lists a step before its dependency can be sent too early
  (`Runs.PrematureDispatch`). `Listing.SafeIff` says exactly which plans are safe;
  workflows that begin with a step without dependencies are iff they list every step
  after its dependencies (`Listing.WorkflowSafeIff`).

## Model

| member | source | states |
|---|---|---|
| Graph.CycleCheck.Visit | platform/master/orchestrator.py:150-158 | the recursive three-colour visitor: it marks a node done only after all its dependencies, never expands a node twice, and fails only on a real cycle |
| Graph.AssertAcyclic | platform/master/orchestrator.py:146-161 | returns iff the dependency graph has no cycle; then the order in which nodes turn done lists every step once and after all its dependencies; no node is expanded twice, even when it fails |
| Graph.OrderImpliesAcyclic | platform/master/orchestrator.py:146-161 | a dependencies-first order rules out every cycle |
| Graph.CascadeSteps | platform/common/db.py:187-194 | the recursive query terminates with exactly the failed step and all steps that transitively depend on it, on any graph |
| Graph.ClosedSetHoldsAllHit | platform/common/db.py:187-194 | every set that holds the failed step and is closed under "depends on" holds all hit steps: the query computes the least one |
| Planner.LoadWorkflow | platform/master/orchestrator.py:69-139 | accepts a parsed workflow iff it has steps, 1..10 attempts, distinct names, allowed tools, known dependencies and no cycle; each error is returned iff its own check is the first to fail, in this order, and names a real offender: for tools and dependencies the first step that does not fit, its tool before its dependencies |
| Planner.PlanTasks | platform/master/orchestrator.py:169-203 | the nested loops produce the plan that `Plans` lays out |
| Plans.PlanLaid | platform/master/orchestrator.py:174-199 | the plan has one entry per target for each step that runs per target and one for each `once` step, in listing order; each has its step's name, tool, dependencies, gate and attempts; a per-target entry has the target as its group and the step's parameters, a `once` entry the step's parameters with the target list in `targets` and as its group the targets sorted and joined by commas |
| Plans.EveryEntry | platform/master/orchestrator.py:187-199 | every entry of a plan is such an entry of some step and target; for an accepted workflow its tool is an allowed one |
| Plans.GroupOrderFree | platform/master/orchestrator.py:182-184 | a sorted comma-joined list of the targets does not depend on their order |
| Plans.OnceGroup | platform/master/orchestrator.py:182-189 | for permuted targets a `once` entry has the same group, and the same key iff the order is the same |
| Planner.PlanMembers | platform/master/orchestrator.py:174-199 | the entries of a plan are exactly those of a step applied to one of its groups |
| Planner.KeysCollideOnRepeatedPairs | platform/common/ids.py:21-29 | two planned keys are equal iff they come from the same step and the same group |
| Planner.PlanKeysBijective | platform/master/orchestrator.py:174-199 | whatever targets are repeated, the keys of a plan correspond one to one to one unit per `once` step and one per other step and distinct target |
| Planner.DistinctTargetsDistinctKeys | platform/master/orchestrator.py:169-203 | without repeated targets no key repeats |
| Planner.PlanHasShape | platform/master/orchestrator.py:146-203 | a plan of an accepted workflow carries its scan, 1..10 attempts, one dependency list and gate per step, and has no cycle |
| Planner.ListedInOrderPlans | platform/master/orchestrator.py:174-199 | if steps are listed after their dependencies, so are their plan entries |
| Runtime.Platform.Enqueue | platform/common/redis_client.py:57-70 | appends one entry and returns its id |
| Runtime.Platform.Consume | platform/common/redis_client.py:72-86 | delivers the oldest undelivered entry, which becomes pending with a fresh handler; nothing changes when there is none |
| Runtime.Platform.AckEntry | platform/common/redis_client.py:88-90 | takes one entry off the pending set |
| Runtime.Platform.InsertTask | platform/common/db.py:80-110 | inserts unless the key exists and returns the row's id in both cases; no existing row changes |
| Runtime.Platform.MarkDispatched | platform/common/db.py:168-174 | marks exactly the given rows |
| Runtime.Platform.AbortDependents | platform/common/db.py:177-206 | aborts exactly the scan's queued rows whose step is the failed one or transitively depends on it |
| Runtime.Platform.ReadyTasks | platform/common/db.py:116-165 | a batch of at most 50 ready tasks; with fewer than 50 it holds all of them, and it is empty only if none is ready |
| Lifecycle.BasicRun | platform/master/api.py:317-336 | in every run rows come from their scan's plan, a scan that ever ran has all its planned rows, pending entries and handlers belong to delivered entries, and every message names a row |
| Lifecycle.GrowsStep | platform/common/db.py:91-110 | no step deletes a row or changes its planned columns, withdraws a finding or a message |
| Carriers.NoLostTask | platform/common/redis_client.py:109-118 | in all runs a dispatched task that is queued or running has an undelivered entry, an un-ACKed delivery, or a handler between claim and re-send, unless at some step the last handler to carry it stopped after its delivery was re-sent under it |
| Carriers.LosesIff | platform/worker/main.py:139-153 | a covered task loses its cover at a step iff that step is such a stop and no other entry carries the task |
| Carriers.OrphaningStopLosesTask | platform/worker/main.py:271-279 | the exclusion is needed: a run in which such a stop leaves a queued, dispatched task with no carrier |
| Runs.DispatchSafety | platform/common/db.py:122-133 | if the plan lists dependencies first, any message ever sent for a dependent task traces back to a dispatcher read at which all planned tasks of all its dependency steps were inserted and succeeded and its gate was met, as it still is |
| Runs.PrematureDispatch | platform/master/api.py:317-332 | the listing order matters: a first entry with a dependency and no gate is sent while it is the scan's only row |
| Dormant.TracesToDone | platform/common/db.py:122-133 | if no dependency is first inserted after its dependent once something can have started, every message of a dependent task traces back to a read that saw its planned dependencies inserted and succeeded and its gate met |
| Listing.SafeIff | platform/master/api.py:317-335 | for every plan, whatever it begins with, whatever gates it has and whatever keys repeat, dispatch is safe in all runs iff no entry is listed before one of its dependencies that is first inserted once something can have started |
| Listing.SafeIffOrdered | platform/master/api.py:317-335 | so a plan that begins with a root is safe iff no entry is listed before the first entry of one of its dependencies; without repeated keys, iff every dependency is listed before what depends on it |
| Listing.WorkflowSafeIff | platform/master/orchestrator.py:169-203 | for an accepted workflow whose first step has no dependencies, whatever its targets, dispatch is safe in all runs iff every step is listed after its dependencies |
| Listing.StarterSentEarly | platform/common/db.py:122-127 | a run that sends an entry which can start before one of its dependencies has a row |
| Listing.SendsEarly | platform/common/db.py:122-127 | a run in which, before an entry has a row, everything listed earlier has been sent and has succeeded, its dependents included |
| Runs.ScanClosesAfterItsTasks | platform/master/api.py:480-494 | in all runs a scan leaves `running` only after a state in which it ran with all planned tasks inserted and terminal; its new status is completed iff some task succeeded, as counted at a state in between |
| Runs.RowsAreTheWorkUnits | platform/master/api.py:317-336 | once a scan runs, its rows are exactly the work units of its plan |
| Runs.ReplanningInert | platform/common/db.py:91-110 | inserting any part of the plan again changes no row, whatever has happened since |
| Repeats.RootSendsCounted | platform/master/api.py:319-334 | in all runs a submission that got through has sent each task exactly as often as its plan lists it as a root, hence none twice iff the keys of the roots are pairwise distinct |
| Repeats.RepeatedRootsTwice | platform/common/db.py:106-110 | an undisturbed submission leaves one message per root entry, and at most one live delivery per task iff the keys of the roots are distinct |
| Repeats.RootsRepeatIff | platform/master/orchestrator.py:174-199 | a plan lists a root twice iff a target is repeated and a step without dependencies runs once per target |
| Retries.OutcomesBounded | platform/worker/main.py:263-297 | while at most one delivery of a task is live, crashed and reclaimed ones included, it records at most `max_attempts` outcomes, hence at most 10 |
| Retries.TerminalIsFinal | platform/worker/main.py:299-317 | under the same condition a terminal state and its result never change, although the updates do not test the old state |
| Retries.OneRunner | platform/worker/main.py:158-168 | and at most one handler runs the task, with its row running |
| Retries.StopKeepsSingle | platform/worker/main.py:139-153 | a handler that stops with its delivery pending leaves at most one live delivery |
| Retries.GrabKeepsSingle | platform/common/redis_client.py:102-105 | so does claiming the stale entry of a gone handler |
| Retries.RequeueKeepsSingle | platform/common/redis_client.py:114-116 | so does sending it again |
| Retries.ReleaseKeepsSingle | platform/common/redis_client.py:117 | so does the ACK of the old entry |
| Orderly.OrderlySingle | platform/common/redis_client.py:92-118 | in every run whose steps are orderly for a task (its first message is sent once; no handler of it stops between redelivery and ACK; its entries are claimed only without handler and other reclaimer, and given up only before the re-send or when no longer pending) it has at most one live delivery in every state |
| Orderly.OrderlyRetries | platform/worker/main.py:263-297 | so in such a run, stops and reclaims included, it records at most `max_attempts` outcomes, at most 10, and one handler runs it at a time |
| Orderly.OrderlyTerminalIsFinal | platform/worker/main.py:299-317 | and its terminal state and result never change |
| CleanRuns.MoveIsRun | platform/master/api.py:319-336 | every clean move is an uninterrupted sequence of ordinary steps |
| CleanRuns.SubmitIsRun | platform/master/api.py:317-336 | an undisturbed submission ends in one closed form of rows and messages, whatever keys repeat |
| CleanRuns.AddRowsAt | platform/master/api.py:319-334 | a submission adds a queued row per entry, dispatched iff it is a root, and touches no other row |
| CleanFlow.WorkFlow | platform/worker/main.py:155-297 | every worker step keeps: one live delivery per unfinished dispatched task, none for an undispatched one, running rows exactly for handlers at work |
| CleanFlow.DispatchFlow | platform/master/api.py:403-435 | so does a dispatch |
| CleanFlow.SubmitFlow | platform/master/api.py:317-336 | so does a submission |
| CleanCascade.UpstreamPath | platform/common/db.py:122-127 | everything that a dispatched task transitively depends on has succeeded |
| CleanCascade.CascadeDooms | platform/common/db.py:187-201 | aborting the hit queued tasks leaves nothing queued or running strictly downstream of any hit step |
| CleanCascade.CleanRunInv | platform/worker/main.py:155-297 | the invariant of clean runs: flow, upstream success, stored verdicts that fit, failures passed on, closed scans all terminal |
| CleanTheorems.OneLiveDelivery | platform/worker/main.py:158-168 | at most one delivery of a task can still change its row; its row is running iff its handler is at work |
| CleanTheorems.TerminalRowsFinal | platform/worker/main.py:299-317 | succeeded, failed, dead and aborted are absorbing, result included |
| CleanTheorems.CascadeIsFinal | platform/common/db.py:177-206 | once a failure has cascaded, no task of a strictly downstream step is ever queued or running again |
| CleanTheorems.ClosedScanFinal | platform/master/api.py:488-494 | a closed scan keeps its status and every task's state, and is completed iff one of its tasks succeeded |
| CleanTheorems.NoHanging | platform/master/api.py:472-487 | in a clean run at rest every task that is not terminal is queued and undispatched, and it or a step it transitively depends on has a task held by an unmet gate or refused by the capability gate |
| Hanging.HangsIff | platform/master/api.py:472-487 | in a clean run at rest exactly those tasks hang that are obstructed (their own gate is unmet, or upstream of them a gate is unmet or a tool was refused) and that no failure with a cascade, at their own step or upstream, has taken along |
| Hanging.ClosesIff | platform/master/api.py:472-487 | so in a clean run at rest a running scan can be closed iff such a failure has taken along every obstructed task |
| CleanTheorems.UnblockedScanCloses | platform/master/api.py:480-487 | so in a clean run at rest a scan without unmet gates and refusals can be closed |
| Refusal.RefusalHangs | platform/worker/main.py:203-213 | the condition is needed: a clean run at rest whose scan still runs because its root was refused |
| Unending.EndsIff | platform/worker/main.py:299-317 | in all runs an unfinished task ends at a step iff that step is its terminal outcome or a cascade that hits it while it is queued |
| Unending.OpenUntilEnded | platform/master/api.py:480-487 | in all runs, whatever stops and is redelivered, an unfinished task stays so and its running scan is not closed as long as no step ends the task |
| Unending.RaisesIff | platform/worker/main.py:215-231 | a claimed delivery ends with neither outcome nor retry nor ACK iff the scope gate meets an address error, or past the gates the tool is starved of its input, its context or arguments break, or its run breaks; the handler then just stops |
| Unending.RaisedStaysPending | platform/worker/main.py:139-153 | whatever the others do meanwhile, such a handler leaves its task unfinished, its scan open and its delivery un-ACKed, unless somebody else ends the task or reclaims the delivery |
| Unending.Rounds | platform/common/redis_client.py:109-118 | from any state with one undelivered entry of an unfinished task whose tool is starved, n redeliveries change nothing but the attempt count |
| Unending.InputErrorForEver | platform/worker/main.py:325-337 | for every n a run, orderly for the task, without gate or refusal, in which a task whose dependencies succeeded without a finding for its tool is delivered n times, its attempts beyond any limit, no outcome recorded, the scan still running |
| Progress.MoveDescends | platform/worker/main.py:263-297 | a measure over unsent rows, delivery phases and remaining attempts drops with every clean move but a submission |
| Progress.WorkIsBounded | platform/master/api.py:403-435 | a clean run makes at most 97 moves per planned task plus one per scan besides its submissions |
| Progress.NotAtRestMoves | platform/master/api.py:450-459 | a clean run that is not at rest can move without a submission |
| Progress.RunsDown | platform/master/api.py:450-459 | every clean run extends to one at rest without further submissions |
| Progress.RestClosesScans | platform/master/api.py:472-487 | in a clean run at rest every scan is closed or has a blocked task |
| Logs.RedeliveredBeforeAck | platform/worker/main.py:271-279 | in every log of a handler that retries, the redelivery is sent before the ACK and stands in the stream in every later state |
| Logs.FailedThenAborted | platform/worker/main.py:281-297 | in every log of a handler that fails its task for good, the outcome is stored, then a state is left in which nothing at or below the failed step is queued, then comes the ACK |
| Logs.OutcomeStored | platform/worker/main.py:299-317 | every outcome among a handler's steps is in its row in the next state: failed for a scope refusal, succeeded for a completed run, dead otherwise, with the summary as result |
| Logs.FindingsStored | platform/worker/main.py:241-246 | every finding type that the run reported is in the scan's findings from then on |
| Logs.RetryRequeues | platform/worker/main.py:271-274 | a retry leaves the row queued |
| Logs.HandledStaysCarried | platform/worker/main.py:155-297 | a handler that runs to its ACK loses no task: at every state of its log the unfinished task is carried, unless another handler of it was orphaned as its last carrier |
| Logs.RoundDelivers | platform/master/api.py:403-435 | after a round every task of the batch has a first message in the stream, sent before the mark, and its row is marked |
| Logs.RoundCloses | platform/master/api.py:488-494 | after a round every scan for which it reached a verdict is closed |
| Repeats.LoggedSends | platform/master/api.py:306-339 | in every log of a submission each task has been sent exactly as often as its plan lists it as a root, and the stream holds at least as many first messages |
| Handler.ClaimTask | platform/worker/main.py:158-169 | claims a queued or running row and returns its `max_attempts`, else leaves it alone |
| Handler.Finalize | platform/worker/main.py:299-317 | stores state and summary whatever the row's state is |
| Handler.RequeueRow | platform/worker/main.py:271-274 | sets the row back to queued whatever its state is |
| Handler.Redeliver | platform/worker/main.py:275-277 | sends the message again with its attempt counted up |
| Handler.AbortBranch | platform/worker/main.py:291 | one step of the abort query for the handler's own step |
| Handler.FailBranch | platform/worker/main.py:281-297 | terminal failure: outcome, then cascade, then ACK, under any interference |
| Handler.RefuseTool | platform/worker/main.py:201-213 | capability refusal: outcome and ACK, no cascade |
| Handler.Succeed | platform/worker/main.py:241-261 | success: findings, then outcome, then ACK |
| Handler.RetryLater | platform/worker/main.py:263-279 | retry: row requeued, redelivery sent, only then the ACK |
| Handler.BuildContext | platform/worker/main.py:321-345 | under interference the input error is raised iff the tool needs a file and its scan has no consumed finding when they are read |
| Handler.Handle | platform/worker/main.py:155-297 | whatever the others do in between, a handler's whole run is an execution; of a delivery that it claims it stores `out of scope` iff the scope check refuses, `not permitted` iff scope passes and the tool is not permitted, `invalid parameters` iff both pass, the input is there and the arguments are refused; it records exactly the reported types and success iff all of these are fine and the run reports; it retries iff the run then fails with attempts left and is exhausted iff it fails without; it cascades iff refused, badly parametrized or exhausted, and ACKs unless an error stops it; an unclaimed delivery is only ACKed, a malformed one stops the handler |
| Master.SubmitEntry | platform/master/api.py:319-335 | one turn of the loop: insert, and for a root send and mark, in that order |
| Master.SubmitScan | platform/master/api.py:306-339 | a submission inserts and sends entry by entry under interference, turns the scan `running` last and returns the number of roots |
| Master.DispatchReadyTasks | platform/master/api.py:403-435 | one round reads a batch, sends each of it once, marks it last; without a batch it takes no step |
| Maintenance.FinalizeScans | platform/master/api.py:472-508 | one round reads all finished scans at once, then counts each and closes it with the verdict of the count |
| Maintenance.ReclaimStale | platform/common/redis_client.py:92-125 | a sweep re-sends every stale entry before it ACKs it, and returns how many; at its end each of them is off the pending set and its message, attempt counted up, stands later in the stream |
| Context.FindingValues | platform/common/db.py:138-154 | every type has exactly the values of its rows, each once, in the order in which the rows first show them |
| Context.BuildInput | platform/worker/main.py:328-345 | the input holds distinct upstream values, all of them below the cap; whatever is not among the first values of the input, cut off by the cap or not, comes later than each of them by consumed type and then by row; the error is raised iff a file is needed and no consumed finding exists |
| Identity.IdentifyIs | platform/common/db.py:215-232 | a finding is skipped iff none of its six keys is usable (a number, or a text that is not all space); otherwise its value is the stripped text of the first usable one in the order value, subdomain, url, host_port, host, id, its type the stripped lower-case type or `unknown`, its severity kept iff it is one of the five, and its fingerprint the text of program, type and value |
| Identity.DescribesOne | platform/common/db.py:215-232 | these parts determine what is stored |
| Identity.FingerprintsIdentify | platform/common/ids.py:32-40 | two well-formed findings get one fingerprint iff program, type and value agree up to case and surrounding space, if neither type is the other followed by a bar and the start of a value; for different programs, if they contain no bar |
| Identity.TypesConfused | platform/common/ids.py:39 | that condition on the types is needed: any two findings of such types get one fingerprint with suitable values |
| Findings.CollectIdentities | platform/common/db.py:247-251 | the malformed findings are skipped and the others described, in their order |
| Findings.Dedup | platform/common/db.py:269-271 | keeps the first occurrence of each fingerprint, in order |
| Findings.BatchedAgrees | platform/common/db.py:260-293 | one seen-before query, dedup in memory and conflict-guarded inserts leave the same table and count as recording one finding at a time |
| Findings.FindingsStore.RecordFindings | platform/common/db.py:235-298 | a committed call leaves the table of the row-by-row form: old rows stay, each entity that the scan lacks gets one unvalidated row from its first finding, new iff the program never showed it; it returns the numbers of distinct entities and of those that are new; a failed one changes nothing and returns zeros |
| Findings.FindingsStore.TriageFinding | platform/common/db.py:353-365 | puts the decision into one row's validation state and changes nothing else; returns that row, None for an unknown one |
| Findings.RecordAllIsBatch | platform/common/db.py:260-293 | recording keeps every old row and adds one unvalidated row per new fingerprint, from its first finding, new iff the program never showed it |
| Findings.FindingsIndependent | platform/common/db.py:247-298 | recording A and B in one batch or in two leaves the same table with the same total of new entities |
| Findings.NewByAllCounts | platform/common/db.py:294-295 | the new count of a batch is the number of its entities that the program never showed |
| FindingsHistory.TableIsHistory | platform/common/db.py:255-295 | after any calls the table holds exactly the recorded (program, entity, scan) triples, and a row is new iff it is from the first scan that ever showed the entity |
| FindingsHistory.OneNewRow | platform/common/db.py:280 | each entity present has exactly one new row |
| FindingsHistory.NewCountsAddUp | platform/common/db.py:294-298 | the returned new counts add up to the number of distinct entities |
| FindingsHistory.ShowsIff | platform/common/db.py:247-251 | a call shows an entity iff it is committed and one of its findings describes the entity |
| FindingsHistory.ReportedIff | platform/common/db.py:426-443 | after any calls and decisions the report of a scan is made of exactly the entities that this scan was the first to show and whose last triage, made while the row was there, confirmed them |
| FindingsHistory.ReportedOnce | platform/common/db.py:426-443 | over the reports of all scans at any moments an entity appears for one scan only, the first that showed it |
| TokenBucket.Limiter.Create | platform/common/ratelimit.py:17-24 | an error iff the rate is not positive; otherwise a full bucket of the given capacity, by default the rate but at least one |
| TokenBucket.Limiter.Attempt | platform/common/ratelimit.py:30-39 | one attempt under the lock, with the wait that is missing to one token |
| TokenBucket.Limiter.Acquire | platform/common/ratelimit.py:26-41 | an uncontended acquire with capacity for one token loops at most twice and waits at most 1/rate, exactly the missing refill; with less capacity it is never granted, however long it is watched |
| TokenBucket.RunSound | platform/common/ratelimit.py:32-37 | tokens stay within 0 and the capacity over any run |
| TokenBucket.WindowBound | platform/common/ratelimit.py:26-41 | concurrent acquires are granted at most capacity + rate * T times in any closed window of length T, a negative capacity counting as zero |
| TokenBucket.BurstIff | platform/common/ratelimit.py:32-38 | of the attempts of one moment the n-th is granted iff n is at most the capacity and at most the tokens left plus the rate times the time since: a rested bucket grants neither fewer nor more |
| TokenBucket.CanGrant | platform/common/ratelimit.py:36 | a bucket can ever grant iff its capacity is at least one |
| SlidingWindow.McpServer.RateLimited | platform/mcp_server/server.py:80-90 | blocks iff the limit is positive and already used up by the accepted calls of the last 60 s; the deque stays a suffix of the accepted calls that misses none of the last 60 s |
| SlidingWindow.McpServer.ToolsCall | platform/mcp_server/server.py:130-189 | which refusal each request gets; only a call that reaches its handler uses up the budget |
| SlidingWindow.PoppedCounts | platform/mcp_server/server.py:85-87 | after popping, the deque's length is the count over the history |
| SlidingWindow.SpacedWindows | platform/mcp_server/server.py:80-90 | no half-open minute of either kind ever holds more accepted calls than the limit |
| Scope.Parse | platform/common/scope.py:67-91 | a pattern is refused iff it names no network or address and its domain, behind a wildcard if any, is not valid; domain and wildcard entries hold the cleaned pattern, a network entry the text of the network that it names, and the polarity is kept |
| Targets.CleanedIs | platform/common/scope.py:69 | a pattern is taken without space around it, in lower case, without final dots |
| Targets.DomainOfLabels | platform/common/scope.py:53-59 | labels joined by dots are a valid domain iff the whole has at most 253 characters and each label 1 to 63 letters, digits, dashes or underscores with no dash at either end, a newline behind it aside |
| Scope.ReparseIff | platform/common/scope.py:67-91 | a stored domain or wildcard pattern parses to itself iff it does not end in a newline |
| Scope.DottedSuffix | platform/common/scope.py:175-179 | the dotted `endswith` test means a strict suffix of dot-split labels |
| Scope.MatchesMeansCovers | platform/common/scope.py:169-179 | for every target the string tests are label-wise containment: domains with themselves, wildcards strictly below |
| Scope.NormalizeTarget | platform/common/scope.py:94-120 | the step-by-step normalization computes the normal form |
| Scope.NormalFormShape | platform/common/scope.py:102-120 | normal forms of ASCII input have safe characters but for a final newline, no final dot and never exactly one colon |
| Scope.FixpointIff | platform/common/scope.py:94-120 | a normal form is a fixpoint iff it is not empty, not wholly bracketed and does not end in a newline |
| Scope.InputFixpointIff | platform/common/scope.py:94-120 | for ASCII input a second normalization changes nothing iff the cut host is plain: not just dots, no final newline, no bracket at its front that is closed at its end |
| Targets.NormalizedLikeItsHost | platform/common/scope.py:102-108 | whatever scheme, user info, port (of a host without colons) and path stand around a host, each present or missing, and whatever space around the whole, the target is normalized like the host alone |
| Targets.PlainHostNormal | platform/common/scope.py:102-120 | a host of safe characters is normalized to itself in lower case without final dots |
| Targets.BracketsOff | platform/common/scope.py:109-110 | an address with colons in brackets is normalized like the address |
| Targets.PortKept | platform/common/scope.py:107-110 | a port behind a host with colons, in brackets or not, stays |
| Targets.EncodedHost | platform/common/scope.py:113-117 | a host that is not ASCII is normalized like its IDNA form |
| Targets.NotEncodable | platform/common/scope.py:113-117 | and refused if it has none |
| Targets.NewlineSlipsThrough | platform/common/scope.py:118 | for every safe host a newline before the path survives normalization, and a second pass takes it away |
| Scope.SafeIffNoNewline | platform/common/scope.py:24-26 | for ASCII input that is accepted, the normal form has only safe characters iff the cut host does not end in a newline |
| Scope.PermitsIff | platform/common/scope.py:142-166 | permitted iff not hard-blocked, not an address error, no deny entry covers the target and some allow entry does |
| Scope.ReasonMeans | platform/common/scope.py:142-166 | the reason of a decision tells which rule it comes from, and its pattern is that of an entry of the right polarity that covers the target |
| Scope.StarsTrimmed | platform/common/scope.py:127-132 | the address test sees the target without the stars at its ends, and no less of it |
| Targets.BlockedHowever | platform/common/scope.py:147-148 | the loopback and metadata names are refused whatever the entries, in any case, with final dots, scheme, user info, port, path or space around them |
| Scope.PolicyMonotone | platform/common/scope.py:154-164 | fewer denies or more allows never take a permission away |
| Scope.OrderIrrelevant | platform/common/scope.py:154-164 | permuting the entries changes no permission |
| Scope.LoadEntries | platform/common/scope.py:190-206 | loads exactly the well-formed rows, each as its pattern parses, in order |
| Scope.MalformedRowInert | platform/common/scope.py:193-194 | a malformed row might as well not be there |
| Scope.GatesAgree | platform/worker/main.py:176-181 | for ASCII input with a plain normal form the decisions on the raw, the normalized and the forwarded target are one |
| Scope.GatesAgreeOnPlainInput | platform/worker/main.py:176-181 | the same with the condition on the input: its cut host is plain |
| Admission.AdmitTargets | platform/master/api.py:280-292 | admits exactly the targets whose normal form is permitted, as these normal forms and in order; fails iff some address test does |
| Admission.AdmitIff | platform/master/api.py:282-289 | a target is admitted iff it has a normal form and that is permitted |
| Admission.ScopeGate | platform/worker/main.py:176-182 | with a non-empty list open iff every listed target is permitted, else iff the target is not empty and permitted; broken iff an address error comes before any refusal |
| Admission.GateOfMessage | platform/worker/main.py:176-182 | what the gate checks of a message: every item of a `targets` list, every character of a `targets` text, else its target, which must not be empty |
| Admission.RebuiltIsDirect | platform/master/api.py:413-427 | the message that the dispatcher rebuilds from a row is the one a submission would have sent, with the step's parameters and the group unless that has a comma, iff the step's own parameters have no `target`; otherwise theirs is the target |
| Admission.AdmittedPassesGate | platform/master/api.py:385-427 | what the master admits passes the worker's gate on the same rows, alone or in a list, sent by the submission or rebuilt by the dispatcher, if the step's own parameters name no target |

## Left out

- PostgreSQL and Redis themselves, networking, pooling and asyncio: a statement or queue call is one atomic step; transactions of `record_findings` are serialized.
- Findings.FindingsStore.RecordFindings: why a transaction fails is an input, so column limits such as the range of `confidence` are not modelled; timestamps and surrogate ids neither.
- Identity.FingerprintsIdentify: SHA-256 is taken to be injective, and different programs to contain no bar; space and case are those of ASCII text.
- Identity.IdentifyIs: the `confidence` column is not modelled.
- Planner.LoadWorkflow: starts from the parsed mapping; YAML, unknown keys, name patterns, `fanout` values and the gate's own syntax are not modelled.
- Planner.KeysCollideOnRepeatedPairs: JSON canonicalization is taken to be injective on scan, step, tool, group and parameters.
- Scope.NormalizeTarget: whitespace and case are those of ASCII text; a target that is not a string is not modelled.
- Scope.Parse: `ipaddress` and IDNA are parameters; the second network construction for a bare address is taken to succeed.
- SlidingWindow.McpServer.ToolsCall: tool names are strings; argument schemas and what a handler answers are not modelled.
- TokenBucket.Limiter.Acquire: a loop that never ends is watched for a number of attempts that is an input; rounding is not modelled.
- Hanging.HangsIff: about clean runs, in which no error stops a handler; what such errors do is stated in `Unending`.
- Maintenance.ReclaimStale: which entries count as stale, and in pages of what size, is an input.
- Handler.Handle: a crash in the middle of a handler is the `Stop` step of the transition system, not a branch of the method.
- Orderly.OrderlySingle: orderly steps are sufficient for one live delivery, not necessary.
- Poison messages, audit rows, heartbeats, metrics, notifications, logging, HTTP routes, authentication and report rendering.
- Tool wrappers, their parsers and argument builders, the subprocess executor and the interactsh driver: a tool run reports finding types, fails or breaks.
- The payload's target and parameters travel with the row but are not columns of the lifecycle model, where a rebuilt message is its id and first attempt; `Admission` models what is rebuilt, with parameter values that are texts or lists of texts.
- legacy/stage0.
