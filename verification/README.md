# A verified model of the control plane's task protocol

The control plane keeps its durable state in one registry: tasks and the runs they belong to,
Global Runs that join several project runs, the dependencies and handoffs between projects,
leases, and turn dispatches. Workers hold claim tokens, read rows and write later; daemons
restart; people cancel and repair. This project models that registry and four smaller parts that
feed it, and proves what holds over every history of calls.

How it is laid out:

- **Tables and steps.** `DomainStates`, `RetryPolicy`, `TaskRows`, `Handoffs` and `RegistrySteps`
  say what each call does to the tables, as functions. A guarded UPDATE is one conditional step; a
  call that throws keeps the writes it made before the throw. The clock is a number that never
  falls, a fresh random token is the next unused number, and a sha256 fingerprint is the structure
  it was computed from.
- **The registry in place.** `ControlRegistry.Registry` is the class: fields updated in place, loops
  where the source has loops, every method proved against its step. Its `log` is the history of
  calls, and its tables are always what that history makes of an empty database.
- **Invariants and laws.** `RegistryInvariant`, `RegistryKeeps`, `RegistryGlobal` and
  `RegistryHistory` prove that every call keeps the invariant and undoes nothing that must last.
  `RegistryEvents` (fencing), `RegistryBudget` (attempts, backoff, lease waits), `RegistryOrder`
  (dependencies, handoffs, cancellation), `RegistryProgress` and `RegistryPasses` (sweeps) and
  `RegistryClaims` (when a claim succeeds) are the laws over whole histories.
- **Global Runs.** `RegistryForecast`, `RegistryTurns` and `RegistryFinish` say what a refresh will do,
  read off the tables before the call; `RegistryConvergence`, `RegistryRelease` and `RegistryStops` say
  where repeated refreshes lead; `RegistryRuns` and `RegistryRefreshes` tell each call on a run or
  Global Run in the columns of the tables before and after it; `RegistryDelivered` and `RegistryRequired` settle the case in which
  every project is required. `RegistryExamples`, `RegistryNets`, `RegistryDeadEnds` and
  `RegistryRevival` hold the histories that show where the code falls short.
- **Graphs.** `TaskGraph` is the depth-first validator, `GraphCreation` the way from validated input
  to rows.
- **Beside the registry.** `Leases`, `TurnDispatch`, `ShellWords`, `ShellGrammar` and
  `CommandEvidence`, `Acceptance`, `Mailbox`, `ContextSelection`.

Where the code falls short of what one would expect of it, the model keeps the code:

- A staged task cannot become `skipped` (`src/domain-states.js:81`), so `refreshGlobalRun` throws, for
  ever, when everything inbound to a preparing consumer was skipped: a project that is the fallback of
  others which all succeed (`RegistryTurns.PreparingTurn`, `RegistryStops.SkippedForever`,
  `RegistryDeadEnds.UnneededFallback`).
- A waiting Global Run cannot become `completed` (`src/domain-states.js:72`), so `refreshGlobalRun`
  throws, for ever, when optional projects end one after the other while every required one has
  completed (`RegistryFinish.RefreshThrowsIff`, `RegistryStops.WaitingForever`,
  `RegistryDeadEnds.OptionalChain`). With required projects only, and no `on_failure` dependency
  between them, it takes a repair of a project made of fallbacks alone
  (`RegistryRequired.RequiredRunConvergesIff`, `RegistryRequired.RequiredRunConverges`,
  `RegistryRevival.RepairedFallbacks`).
- No branch of `src/registry.js:2118-2134` applies to a consumer in which skipped and satisfied
  dependencies mix: it stays preparing and the Global Run waits through every refresh
  (`RegistryTurns.PreparingTurn`, `RegistryStops.StalledForever`,
  `RegistryDeadEnds.FallbackAndSuccessor`).
- Repairing a consumer that was failed by its inbound dependency sets its run going again, but the
  dependency stays failed, so none of its tasks can be claimed (`RegistryOrder.ClosedInboundStops`).
- A skipped fallback never unblocks an `all_success` task (`src/registry.js:3828`), and the graph
  validators accept such graphs (`RegistryExamples.FallbackStarves`, `RegistryOrder.SkippedStarves`,
  and, exactly when, `RegistryProgress.FrontLineMoves`).
- Restart recovery requeues a replay-safe task without giving its attempt back
  (`src/registry.js:950-977`), so the budget carries the number of requeues.
- `waitingSince` survives a repair (`src/registry.js:4236-4255`), so a repaired task has only what is
  left of its lease timeout.
- A failed inbound dependency sends running tasks of the consumer to `recovery_attention` without
  clearing the worker and token (`src/registry.js:2120-2126`); the status guard still fences them.
- One call of `refreshBlockedTasks` need not process everything a skip enables, because only a
  failure makes it loop (`RegistryExamples.SkipComesLate` and, exactly when,
  `RegistryPasses.OneCallRestsIff`); what it fails does not depend on row order, and neither does
  the state in which repeated calls come to rest (`RegistryProgress.SweepOrderIrrelevant`).

## Model

| member | source | states |
|---|---|---|
| TransitionLaws.RowCallsFollowTable | src/domain-states.js:80-103 | every status change a claim, recovery or cancellation call makes is in the transition table, except exactly running to queued, integration_pending to retry_waiting, and a waiting retry or lease to blocked_by_policy |
| TransitionLaws.CheckedWritesAllowed | src/domain-states.js:206-212 | the calls that check the table before each write (sweep, release, cancel, failed preparation, failed consumer, repair) are never stopped by it |
| TransitionLaws.WaysIntoStatus | src/domain-states.js:80-103 | the task table read by target: what is not over can always fail or be canceled, only held work succeeds, only blocked work is skipped, nothing comes back to staged |
| TransitionLaws.WaysIntoRun | src/domain-states.js:53-64 | the run table read by target: an unended run can always fail or be cancelled, and only a running one completes |
| TransitionLaws.WaysIntoGlobal | src/domain-states.js:66-74 | the Global Run table read by target: completion and waiting are reached from running only |
| TaskGraph.Visitor.Visit | src/registry.js:720-728 | the visiting/visited search: acceptance keeps a topological finishing order, rejection exhibits a cycle; the recursion uses up unvisited nodes |
| TaskGraph.Validate | src/registry.js:706-731 | a task graph is accepted iff it is non-empty, ids are unique, every edge leads to another known task and no cycle exists; the finishing order is then topological |
| TaskGraph.ValidateProjects | src/global-runs.js:138-168 | a project graph is accepted iff it is non-empty, run ids are unique, every dependency joins two different known runs and no cycle exists |
| TaskGraph.OrderRefutesCycles | src/registry.js:720-730 | a topological finishing order rules out every cycle, of any length |
| GraphCreation.OrderRanks | src/registry.js:720-730 | the finishing order numbers a run's tasks so that every dependency has a smaller number |
| GraphCreation.ProjectRanks | src/global-runs.js:152-166 | the finishing order numbers the projects so that producers come before consumers |
| ControlRegistry.Registry.CreateTaskGraph | src/registry.js:2214-2310 | for any budgets, the rows of a run go in iff the graph is accepted, every contract is current and all ids are new; each row then has exactly the declared dependencies, policy, delay, timeout, budget and contract, is staged and unclaimed; nothing else is new or changed |
| ControlRegistry.Registry.CreateGlobalRunGraph | src/registry.js:1760-1870 | one transaction, exactly when, for every input: every declared task, run and dependency gets a row with what was declared of it, gated by the project's manifest, the Global Run's row lists projects, optional ones and dependencies, and nothing else is new or changed; or nothing happens |
| GraphCreation.AllProjects | src/registry.js:1811-1864 | the batch inserted for an accepted Global Run graph meets every condition the invariant asks of new rows |
| ControlRegistry.Registry.ClaimTask | src/registry.js:3895-3970 | claims the task under a token never issued before iff the row is due, its context current and its Global Run lets it through, told in columns (while no handoff was rewritten); the row is taken with one attempt more, and no other task changes |
| ControlRegistry.Registry.AssertGlobalTaskGate | src/registry.js:1926-1955 | re-materialises inbound handoffs in order and stops at the first one that is not received |
| ControlRegistry.Registry.BindClaim | src/registry.js:3972-3994 | only the owner of a running claim changes the row; the first start time stays |
| ControlRegistry.Registry.SetClaimTurn | src/registry.js:3996-4003 | only the owner of a running claim changes the row |
| ControlRegistry.Registry.HeartbeatClaim | src/registry.js:4005-4013 | only the owner of a live claim changes the row |
| ControlRegistry.Registry.MarkClaimAgentDone | src/registry.js:4039-4051 | only the owner moves a running claim to agent_done |
| ControlRegistry.Registry.MarkClaimValidating | src/registry.js:4053-4063 | only the owner moves agent_done to validating |
| ControlRegistry.Registry.MarkClaimIntegrationPending | src/registry.js:4065-4078 | only the owner moves a running or validating claim to integration_pending |
| ControlRegistry.Registry.CompleteClaim | src/registry.js:4023-4037 | only the owner of a running or integrating claim completes it; worker and token are cleared |
| ControlRegistry.Registry.FinishTurnClaim | src/registry.js:4127-4152 | only the owner of a running claim ends it as interrupted or failed |
| ControlRegistry.Registry.FinishFailureClaim | src/registry.js:4160-4234 | only the owner of a held row changes it: it waits for a retry iff the failure is retryable, an attempt is left, neither type nor category is configuration or policy, and it is transient or asks for rework on unseen feedback; the exact retry time, the feedback history and the freed row |
| RetryPolicy.RetryIff | src/retry-policy.js:4-26 | the chain of tests retries exactly what deserves it, and calls for rework only where feedback is new |
| TaskRows.DelayDoubles | src/registry.js:4178-4183 | the first attempt waits for the task's own delay, and each further one twice as long |
| ControlRegistry.Registry.FinishValidationClaim | src/registry.js:4080-4125 | accept completes, accept with warnings completes with warnings; contract or policy trouble ends the task, a broken-down review is repeated while an attempt is left, a rejection is reworked if its feedback is also new; rows and retry times in full |
| ControlRegistry.Registry.WaitClaimForLease | src/registry.js:4236-4255 | gives the attempt back and waits from the first moment on, or at the deadline lets go to recovery_attention; the whole row either way |
| ControlRegistry.Registry.RejectTaskBeforeClaim | src/registry.js:3858-3893 | rejects a claimable row of the version read, failed or blocked by policy as told, and no other |
| ControlRegistry.Registry.RecoverInterruptedTasks | src/registry.js:910-987 | exactly the chosen held rows that are not deferred are recovered: queued iff running under a current, sound, side-effect-free, read-only contract, blocked by policy or failed by what is wrong with the contract, else in need of attention |
| ControlRegistry.Registry.StatusAfterRestart | src/registry.js:940-955 | a held task is queued again iff it was running under a current, sound, side-effect-free, read-only contract; blocked_by_policy iff the current contract breaks policy; failed iff the contract is outdated or otherwise unsound; and needs attention in every other case |
| ControlRegistry.Registry.FinishRecoveredIntegration | src/registry.js:3673-3701 | settles an integration_pending row and no other, with the success or the block it was told |
| ControlRegistry.Registry.CancelTask | src/registry.js:4285-4308 | cancels any task that is not over, and lets go of it |
| ControlRegistry.Registry.RepairTaskContract | src/mcp-server.js:1753-1787 | exactly when: a task that ended without success, under a new contract, is blocked again with an attempt left and no feedback, and its run is set running |
| ControlRegistry.Registry.ReleaseStagedRun | src/registry.js:1608-1679 | iff the gate stands and everything inbound was received, the run runs and its staged rows are queued, or blocked if they depend on others; no other row changes |
| ControlRegistry.Registry.FailPreparedRun | src/registry.js:2451-2534 | fails a run in preparation with every task that is not over, iff none of its work has begun; an ended run is left alone |
| ControlRegistry.Registry.CancelRun | src/registry.js:2563-2570 | cancels every task of the run that is not over, and the run itself unless it completed or failed |
| ControlRegistry.Registry.RefreshRun | src/registry.js:2536-2561 | does nothing until every task is over; then it refreshes the Global Run above, or ends the run as its tasks say if there is none |
| ControlRegistry.Registry.PropagateDependencies | src/registry.js:3794-3833 | the do/while ends; it fails exactly the least set of blocked all_success tasks that failures reach, whatever the row order; none is left with a failed dependency; it changes nothing iff there is nothing to do; it leaves nothing to do when no blocked row awaits a fallback, or when no failure is left to pass on and no skip of its own enables a row; the two counters are the rows queued and failed |
| ControlRegistry.Registry.RefreshBlockedTasks | src/registry.js:3794-3836 | the sweep's guarantees, the number of rows queued and of rows failed, and after it only refreshes of runs in which a task ended |
| ControlRegistry.Registry.MaterializeHandoff | src/registry.js:1974-2080 | checks an existing handoff, prepares a missing one, receives what is fit and fails the dependency of what is not |
| ControlRegistry.Registry.RefreshGlobalRun | src/registry.js:2082-2163 | decides every dependency by its condition and its producer's end; if it does not throw, fails, starts, ends or leaves each project with its tasks and gives the Global Run its status; touches no other project or dependency (while no handoff was rewritten) |
| ControlRegistry.Registry.ReleaseGlobalRun | src/registry.js:1957-1972 | iff every root may be released, all roots run with their tasks queued or blocked, the Global Run runs, and nothing else changes |
| ControlRegistry.Registry.RequestGlobalRunCancellation | src/registry.js:2165-2173 | records the request on a Global Run that has not ended, and nothing else |
| ControlRegistry.Registry.CancelGlobalRun | src/registry.js:2175-2187 | cancels the Global Run at its own request, and with it the members that have not ended and their tasks; an ended one is left alone |
| RegistryKeeps.RowOpKeeps | src/registry.js:3972-4255 | no row call leaves a successful status, revives an ended task, moves waitingSince, or breaks the row's invariant |
| RegistryKeeps.ClaimKeeps | src/registry.js:3895-3970 | a claim keeps the invariant: what it starts has its dependencies and producers behind it |
| RegistryGlobal.SkipThrows | src/registry.js:2127-2130 | the branch that skips a consumer throws in every good state before it writes anything |
| RegistryGlobal.RefreshGlobalHeld | src/registry.js:2082-2163 | a refresh keeps every invariant, issues no token, starts no task of a preparing run and leaves every held or ended task as it was, whether or not it throws |
| RegistryHistory.ReachableGood | src/registry.js:910-4308 | every state that any history of calls reaches satisfies the invariant |
| RegistryHistory.HistoryLater | src/registry.js:910-4308 | no longer history undoes a success, a completed run, a cancellation request, a Global Run's end, a waitingSince, a decided dependency (but for a satisfied one that fails) or the wiring of the graphs |
| RegistryHistory.ReachableRegular | src/registry.js:1974-2080 | unless a row is rewritten from outside, every handoff behind a satisfied dependency is received, sealed and receipted |
| RegistrySafety.TablesAreGood | src/registry.js:734-4308 | whatever was called on a registry, its tables satisfy the invariant and no two rows share a token |
| RegistryEvents.EventStep | src/registry.js:910-4308 | under any call a row is left steady, answers its worker, is claimed or is repaired; a token is issued exactly by a successful claim |
| RegistryEvents.TerminalPermanence | src/domain-states.js:80-103 | only repair leaves a terminal status, for blocked; a success is never left |
| RegistryEvents.CallNeedsToken | src/registry.js:3972-4255 | a call presenting a token succeeds only on a row that carries it and is held |
| RegistryEvents.LeavingSpends | src/registry.js:910-987 | a row that stops carrying its token, by ending, cancellation, recovery or anything else, leaves the token spent everywhere |
| RegistryEvents.OneEndingPerToken | src/registry.js:4023-4255 | over any history at most one ending call succeeds for a token |
| RegistryEvents.StaleWorkerIsFenced | src/registry.js:3972-4255 | a worker that once lost its row is refused for ever, on every row, and changes nothing |
| RegistryEvents.TerminalForever | src/domain-states.js:80-103 | an ended task that is not repaired keeps its status over any stretch of history |
| RegistryEvents.NoBlindReplay | src/registry.js:910-987 | a held task becomes claimable again only by its owner's ending call or by recovery of a running task with a valid, side-effect-free, read-only contract |
| RegistryBudget.GrantedIff | src/registry.js:3895-3970 | the claims counted are exactly the claimTask calls that returned the task |
| RegistryBudget.AttemptBudget | src/registry.js:3895-4255 | attempt is claims less lease waits, at most the budget (maxAttempts, or 1) plus restart requeues, and strictly less while the task is still to be claimed |
| RegistryBudget.RunClaimsBounded | src/registry.js:3895-3970 | a run is claimed at most as often as its tasks' attempts, restart requeues and lease waits add up to |
| RegistryBudget.ReworkIsNew | src/registry.js:4166-4214 | a retry for rework carries feedback not seen before and records it; the revision counts distinct feedbacks |
| RegistryBudget.BackoffBound | src/registry.js:4178-4183 | without restart requeue or repair, the claim that raises attempt to k comes at least retryDelay times (2^(k-1) - 1) after the first claim, lease waits or not |
| RegistryBudget.LeaseDeadline | src/registry.js:4236-4244 | the owner's wait at or after waitingSince plus the timeout ends the task in recovery_attention |
| RegistryBudget.LeaseWaitsBounded | src/registry.js:4236-4255 | lease waits of at least a given delay fit into the timeout, but for the last one and one per repair |
| RegistryOrder.OrderWithinRun | src/registry.js:3955-3963 | an all_success task that is active, claimable or was ever claimed has every dependency completed |
| RegistryOrder.OrderAcrossRuns | src/registry.js:3941-3951 | once a task was claimed, every all_success producer of its run is completed and all its tasks are successful |
| RegistryOrder.ClaimsFollowUpstream | src/registry.js:3895-3970 | along any all_success path over both levels everything upstream of a claimed task is achieved, and stays so |
| RegistryOrder.CompletedForever | src/registry.js:2536-2561 | a completed run stays completed and its tasks stay successful |
| RegistryOrder.SkippedStarves | src/registry.js:3828 | an all_success task with a skipped dependency never becomes claimable again in any later state |
| RegistryOrder.ClaimNeedsHandoffs | src/registry.js:3941-3951 | a consumer's claim succeeds only if each inbound handoff is received with matching content, fingerprint and receipt |
| RegistryOrder.CancellationFreezes | src/registry.js:3924-3933 | once cancellation is requested no task of the Global Run is claimed again, and the attempt changes nothing |
| Handoffs.MaterialiseIsIdempotent | src/registry.js:1981-2001 | materialising again changes nothing: received stays received and a fault found is final |
| Handoffs.FirstDelivery | src/registry.js:2003-2070 | a first handoff carries the dependency's columns and hashes; it is received, with its receipt, iff every required output is attested by a completed task; otherwise its dependency fails |
| Handoffs.LaterDelivery | src/registry.js:2068-2078 | an intact handoff left prepared or validated is received, and any other is left as it is |
| Handoffs.ReceiptBinds | src/registry.js:1978-1994 | a receipt stands for one delivery: same dependency, producer, consumer, schema and payload |
| RegistryRuns.PayloadMeans | src/registry.js:2004-2040 | a first payload tells the dependency's columns and each task of the producer with its status and attested outputs |
| Handoffs.DetectionIsExact | src/registry.js:1984-2000 | an existing handoff fails its dependency iff some hash in it is not the one its payload and consumer determine |
| Handoffs.TamperingIsSeen | src/registry.js:1984-2000 | a rewritten received handoff is found unless every hash that depends on the change was redone |
| RegistryProgress.SweepMeans | src/registry.js:3810-3831 | in statuses: a fallback is skipped iff all it stands in for completed or was skipped and runs iff all is over and something was not; an all_success task fails iff something it needs failed or was canceled and is queued iff all completed |
| RegistryProgress.SweepOrderIrrelevant | src/registry.js:3801-3833 | any two orders of sweeping that come to rest come to the same tables |
| RegistryProgress.PropagatedIsClosed | src/registry.js:3819-3827 | when no failure is left to pass on, the failed set is closed under propagation |
| RegistryProgress.SweepFailsInside | src/registry.js:3819-3827 | no sweep fails a task outside any set closed under propagation |
| RegistryProgress.FrontLineMoves | src/registry.js:3801-3833 | in a run at rest a task whose dependencies have ended is held or claimable iff it does not need the success of a skipped one |
| RegistryProgress.Progress | src/registry.js:3794-3856 | a released run that a sweep leaves unchanged is finished, has a task that a worker holds or can claim now or after its delay, or has a starved one; never the last if no all_success task relies on a fallback |
| RegistryClaims.ClaimIff | src/registry.js:3895-3970 | a claim succeeds iff the task is claimable, its delay is over, its dependencies allow it, its context is current and, in a Global Run, the gate is live, the manifest intact and every inbound handoff, checked or prepared alone, is deliverable: all read off the tables before the call |
| RegistryClaims.ClaimSucceedsIff | src/registry.js:3895-3970 | the same in the columns of the tables, while no handoff was rewritten: status, delay, dependencies, gate, manifest, and every inbound dependency satisfied with its outputs attested or its handoff there |
| RegistryClaims.LoopOpens | src/registry.js:1943-1952 | the gate's loop opens and leaves only deliverable handoffs iff each inbound one would be deliverable on its own; order and repetition do not matter |
| RegistryClaims.HandedOverIff | src/registry.js:1974-2080 | unless a row was rewritten from outside, a dependency is handed over iff it is satisfied and its handoff exists or every required output is attested by a completed task of the producer |
| RegistryClaims.MoverClaims | src/registry.js:3895-3970 | what the sweep leaves movable and nobody holds is claimed iff its delay is over, its context current and its gate open, inside a Global Run or outside one |
| RegistryPasses.OneCallRestsIff | src/registry.js:3801-3833 | where no failure is left to pass on, one call leaves nothing to do, in whatever order it reads the rows, iff no blocked row is missing only skips that this call makes |
| RegistryExamples.SkipComesLate | src/registry.js:3801-3833 | a history after which one call, reading a task before its fallback, skips the fallback and leaves the task that only waited for it blocked |
| RegistryExamples.FallbackStarves | src/registry.js:3828 | a history to a released run at rest that is unfinished and in which nobody can move |
| RegistryForecast.ResolvedForeseen | src/registry.js:2091-2105 | after settling and delivering, every member stands and every dependency is decided as the tables before the refresh foretell, and every satisfied dependency has its handoff |
| RegistryForecast.CompletedIffSuccessful | src/domain-states.js:308-313 | a run with all tasks ended is derived completed iff every task is successful |
| RegistryRefreshes.DependencyDecided | src/registry.js:2091-2105 | a refresh decides a pending dependency iff its producer is over or about to be: on_failure is skipped iff it succeeds, all_success fails if it does not, every other case is satisfied or fails for want of outputs |
| RegistryRefreshes.ProjectCome | src/registry.js:2106-2134 | project by project, what a refresh that does not throw makes of the run and of every task in it |
| RegistryRefreshes.FallbackStarts | src/registry.js:2097-2134 | a preparing project all of whose producers failed under on_failure, outputs there, is started by the refresh |
| RegistryRefreshes.StatusCome | src/registry.js:2135-2161 | the status of the Global Run from its members and their tasks after the refresh |
| RegistryRefreshes.RefreshMeans | src/registry.js:2082-2163 | all that a refresh does and all that it leaves alone |
| RegistryRefreshes.RunSettles | src/registry.js:2536-2561 | a run is settled iff it is due: failed if a task did, else cancelled if one was, else completed |
| RegistryRefreshes.RunRefreshIsGlobalRefresh | src/registry.js:2536-2561 | refreshing a due member has the very effect of refreshing its Global Run |
| RegistryTurns.ConsumerTurn | src/registry.js:2113-2134 | a consumer's turn throws iff it is preparing and everything inbound was skipped or a cancellation forbids the release that is due; it fails the consumer iff nothing is pending and something failed, releases it iff all is satisfied, and else changes nothing |
| RegistryTurns.PreparingTurn | src/registry.js:2118-2134 | with nothing pending a preparing consumer's turn throws iff nothing failed and all was skipped; else preparation ends iff something failed or all is satisfied; it goes on iff nothing failed and skipped and satisfied mix |
| RegistryFinish.RefreshForecast | src/registry.js:2082-2163 | a refresh of any Global Run that has not ended, cancelled or not, with any conditions and memberships, unless a handoff was rewritten from outside: it throws iff a consumer's turn is refused or the table lacks the edge to the Global Run's destiny, else the Global Run gets that status; all read off the tables before the call |
| RegistryFinish.RefreshThrowsIff | src/registry.js:2118-2161 | a refresh of a Global Run under way throws iff a preparing consumer has nothing inbound but skipped dependencies, or the Global Run waits, every member is over or about to be, none shows attention and every required one succeeds |
| RegistryFinish.DerivedStatus | src/domain-states.js:315-324 | the derived status of a Global Run in terms of its members: none unless all are over; then cancelled, attention, failed by a required member, or completed |
| RegistryConvergence.OpenRunsIff | src/registry.js:2157-2161 | a Global Run that a refresh leaves open is running iff one of its projects runs, and else waits |
| RegistryConvergence.RefreshConverges | src/registry.js:2082-2163 | once released and with the workers done, a refresh that does not throw ends the Global Run, takes a project out of preparation, or meets a consumer in which skipped and satisfied mix |
| RegistryConvergence.RefreshesConclude | src/registry.js:2082-2163 | whatever the conditions and memberships, one refresh more than there are preparing projects ends the Global Run, starts a project, or reaches one of the three named stops, with no throw before it |
| RegistryConvergence.RefreshesSuffice | src/registry.js:2082-2163 | without on_failure dependencies, optional members or not, and while a required project is short of success or the end is at hand, the same refreshes end the Global Run or start a project, and none throws |
| RegistryRelease.ReleaseStartsRoots | src/registry.js:1957-1972 | a release that does not throw starts every project without inbound dependencies |
| RegistryRelease.ReleasedRunConcludes | src/registry.js:2082-2163 | in every history without a rewritten handoff, after a release and with the released projects' tasks over, projects plus one refreshes end the Global Run, start a project or reach a named stop |
| RegistryRelease.ReleasedRunConverges | src/registry.js:2082-2163 | the same without on_failure dependencies, optional members or not, where a required project is short of success, or the Global Run runs and every project is about to be over: the refreshes end the Global Run or start a project, and none throws |
| RegistryRequired.RequiredRunConvergesIff | src/registry.js:2082-2163 | in every history without a rewritten handoff, after a release, with required projects, no on_failure dependencies and the released projects' tasks over, projects plus one refreshes end the Global Run or start a project, none throwing, iff it does not already wait with every project successful |
| RegistryRequired.RequiredRunConverges | src/registry.js:2082-2163 | the refreshes always do, for all_success and all_terminal dependencies, if nothing was repaired since the release or every project has a task that is no fallback |
| RegistryRequired.WaitsOnStruck | src/registry.js:2113-2161 | in any such history, while the Global Run waits, one of its projects is under a failed dependency and, unless something was repaired since the release, has a task that ended without success |
| RegistryDelivered.ReachableDelivered | src/registry.js:3895-3970 | without outside rewrites, a task that was ever claimed and kept its attempt has everything inbound to its run satisfied, received and sealed |
| RegistryStops.SkippedForever | src/registry.js:2127-2130 | a preparing consumer whose inbound dependencies are all skipped makes every later refresh throw, and the Global Run keeps its status |
| RegistryStops.StalledForever | src/registry.js:2118-2134 | a consumer in which skipped and satisfied mix is never released and never failed: no refresh throws, and the Global Run waits through all of them |
| RegistryStops.WaitingForever | src/domain-states.js:72 | a waiting Global Run that is due to complete makes every later refresh throw |
| RegistryOrder.ClosedInboundStops | src/registry.js:3941-3951 | once an inbound dependency is failed or skipped it stays so, and no task of the consumer is ever claimed again, whatever is refreshed, repaired or released |
| RegistryDeadEnds.UnneededFallback | src/registry.js:2127-2130 | a history: a fallback of two projects that both succeed, after which every refresh throws and the Global Run stays running |
| RegistryDeadEnds.FallbackAndSuccessor | src/registry.js:2118-2134 | a history: a fallback of one success and successor of another, which stays preparing while the Global Run waits through every refresh |
| RegistryDeadEnds.OptionalChain | src/domain-states.js:72 | a history: the one required project completes, a chain of optional ones fails at its head; the Global Run waits, cannot become completed, and every refresh throws |
| RegistryRevival.RepairedFallbacks | src/domain-states.js:72 | a history with required projects and all_success dependencies only: projects made of fallbacks are failed, repaired and skipped; the Global Run waits with every project successful, and every refresh throws |
| Leases.WorktreeExclusion | src/registry.js:4310-4381 | between two grants of one worktree key lies a release naming the first owner, expired or not |
| Leases.TimelyNeverDisplaced | src/registry.js:1387-1426 | an agent lease kept renewed before its expiry is never displaced, and nobody else is granted it |
| Leases.DisplacedIsPowerless | src/registry.js:1416-1440 | a displaced or expired holder's renewals and releases change nothing until it is granted the lease anew |
| Leases.RenewedUntil | src/registry.js:1416-1426 | a renewed agent lease is in time until now plus its time, and no longer |
| Leases.GrantedUntil | src/registry.js:1387-1414 | a granted agent lease can be taken over from the end of its time on, and not before |
| Leases.LeaseStore.AcquireLease | src/registry.js:4310-4351 | granted iff the key is unknown or released; an expired lease is not free |
| Leases.LeaseStore.RenewLease | src/registry.js:4353-4364 | extends the active lease of its owner, and of its token if one is given |
| Leases.LeaseStore.ReleaseLease | src/registry.js:4366-4381 | changes the lease of its owner, and of its token if one is given; throws on an illegal change of status |
| Leases.LeaseStore.ExpireLeases | src/registry.js:4383-4388 | marks the active leases past their expiry, and only those |
| Leases.LeaseStore.AcquireAgentLease | src/registry.js:1387-1414 | granted, for the time asked, iff no active lease on the agent still runs |
| Leases.LeaseStore.RenewAgentLease | src/registry.js:1416-1426 | succeeds iff task and token hold the active lease |
| Leases.LeaseStore.ReleaseAgentLease | src/registry.js:1428-1440 | succeeds iff task and token hold the active lease |
| Leases.LeaseStore.RecoverExpiredAgentLeases | src/registry.js:989-1014 | expires exactly the active leases past their expiry, and counts them |
| TurnDispatch.LifeOrdered | src/registry.js:805-908 | over a dispatch's life versions strictly increase, statuses only climb and generations never fall |
| TurnDispatch.FewChanges | src/domain-states.js:130-139 | a dispatch changes status at most seven times |
| TurnDispatch.OneWriterPerRead | src/registry.js:827-871 | of two writers working from one read the second changes nothing |
| TurnDispatch.CancellationHolds | src/registry.js:885-908 | after a cancellation no write of an older generation succeeds and no turn is submitted or running again |
| TurnDispatch.EndedStays | src/domain-states.js:226-229 | a verdict is final; only a recovery that observed the same turn's end adds one to recovery_attention |
| TurnDispatch.TurnCanComplete | src/domain-states.js:130-139 | a prepared dispatch can be driven through acquisition, creation, submission and running to completion |
| TurnDispatch.CurrentWriterWrites | src/registry.js:827-871 | the writer that holds the current row gets its transition through iff the table has the way or recovery observed the end, and the row is then exactly as written |
| TurnDispatch.WaysIntoStatus | src/domain-states.js:130-139 | the dispatch table read by target: completion and interruption follow submission, a running turn is not cancelled outright |
| TurnDispatch.DispatchRow.ClaimTurnDispatch | src/registry.js:805-825 | the owner whose lease runs gets its row back; a free, lapsed, own or forced row is claimed; an ended one never |
| TurnDispatch.DispatchRow.TransitionTurnDispatch | src/registry.js:827-871 | writes only over the version it read, under the token and generation named; throws exactly on an illegal change or unfit evidence |
| TurnDispatch.DispatchRow.HeartbeatTurnDispatch | src/registry.js:873-883 | succeeds iff instance and token own a dispatch that has not ended |
| TurnDispatch.DispatchRow.RequestTurnDispatchCancellation | src/registry.js:885-908 | moves the dispatch to cancelling under a new generation unless another write came between |
| ShellWords.DisplayArgv | src/native-evidence.js:11-40 | the character loop reads the words its dialect denotes |
| ShellWords.LiteralWords | src/command-evidence.js:40-66 | the character loop reads the words its dialect denotes |
| ShellWords.RoundTrip | src/native-evidence.js:8-40 | any words, printed with single or double quotes, are recovered exactly by both decoders |
| ShellGrammar.WordsIff | src/native-evidence.js:11-40 | the grammar of literal lines is exact: a decoder returns words iff the line is made of blanks, bare and escaped characters and quoted stretches that mean those words; both dialects |
| ShellGrammar.BareWordsRead | src/command-evidence.js:59-65 | words that need no quotes, separated by spaces, are read as they stand |
| ShellWords.DecodersAgreeIff | src/native-evidence.js:11-40 | where displayArgv returns words literalWords does too, and the same iff no backslash stands before an ordinary character inside double quotes |
| ShellWords.ShellSyntaxRefused | src/command-evidence.js:38-66 | an expansion or operator after any accepted beginning spoils the line, whatever follows |
| CommandEvidence.IsEmptyFileSearch | src/command-evidence.js:68-100 | exit code 1, an ended status, no output field with more than white space, and a literal rg --files inside at most two shells, told over the grammar of the line |
| CommandEvidence.ReadFileArgs | src/command-evidence.js:86-99 | the argument loop accepts the argument grammar |
| CommandEvidence.FileArgsIff | src/command-evidence.js:86-99 | the accepted arguments are exactly --files among known flags, patterns and paths, then possibly -- and paths |
| CommandEvidence.EmptyFileSearchIff | src/command-evidence.js:68-100 | what counts as a search that found nothing, down to the characters of the line and of the outputs |
| Acceptance.CommandItems | src/completion-evaluator.js:14-24 | the first occurrence of each command item |
| Acceptance.SameCommands | src/failure-classifier.js:113-121 | the classifier's two passes look at the same command items as the verdict's ledger |
| Acceptance.AssessTaskResult | src/failure-classifier.js:103-176 | no failure is reported iff the turn ended without error or reported failure and every command it ran is harmless or, with reviews, a named non-test command with a nonzero exit and no authority trouble; the reviews are exactly those |
| Acceptance.UnresolvedReviews | src/completion-evaluator.js:137-149 | nothing is unresolved iff exactly one evidence-backed assessment of the same exit code matches each reviewed command |
| Acceptance.EvaluateTaskCompletion | src/completion-evaluator.js:78-218 | accepts iff the execution succeeded and, in the final phase, all that was promised is there; then every command is harmless or excused by exactly one assessment, and no failed test is; asks for inspection iff evidence only a person can supply is missing; category, retry and next action follow |
| Acceptance.TurnSucceededMeans | src/failure-classifier.js:113-176 | the classifier's passes come to that condition on the items' own columns |
| Acceptance.CompletedMeans | src/completion-evaluator.js:137-199 | completion is reviews resolved, outputs there, no foreign change, validation, integration and postcondition, each told in the options' own columns |
| Acceptance.AcceptedCommandsAccounted | src/completion-evaluator.js:78-218 | in an accepted final turn every command item is clean, a benign search, a test superseded by a later identical success in its directory, or resolved by exactly one assessment |
| Acceptance.PlainAcceptNeedsNoReview | src/completion-evaluator.js:208-209 | plain acceptance leaves every command harmless: no exit but zero and no failure, a search that found nothing, or a test that passed later |
| Acceptance.StrictOutputs | src/completion-evaluator.js:152-175 | under strict evidence every declared output is met and a strategy is integrated |
| Mailbox.Client.Request | src/app-server-client.js:90-105 | issues an id never used before, pending until it settles; a disconnected client issues none |
| Mailbox.Client.HandleResponse | src/app-server-client.js:167-185 | settles its pending request once, or is an orphan that changes nothing |
| Mailbox.Client.RequestTimesOut | src/app-server-client.js:97-100 | settles the request if it is still pending |
| Mailbox.Client.WaitForNotification | src/app-server-client.js:119-134 | takes the oldest kept notification that fits, or joins the waiters when none does |
| Mailbox.Client.WaiterTimesOut | src/app-server-client.js:128-131 | removes the waiter and settles it, without touching any notification |
| Mailbox.Client.ResolveNotificationWaiter | src/app-server-client.js:221-232 | the first waiter that wants a notification gets it, alone; otherwise it is kept, evicting the oldest beyond 1000; no waiter ever wants a kept one |
| Mailbox.Client.HandleExit | src/app-server-client.js:234-246 | every pending request and every waiter settles with the exit, and none is left |
| Mailbox.Dropping | src/app-server-client.js:120-124 | taking or evicting one notification leaves the others kept, in order |
| Mailbox.OneWaiterEach | src/app-server-client.js:221-232 | no two notifications go to one waiter |
| ContextSelection.GroupCandidates | src/context-resolver.js:118-125 | each group holds exactly the claims of its project, scope and subject that are not excluded, in order |
| ContextSelection.BlockingConflicts | src/context-resolver.js:126-151 | an id is blocked iff its group disagrees and the group's winner makes that grave |
| ContextSelection.GraveDisputesBlock | src/context-resolver.js:118-151 | blocked iff a rival on the same subject says otherwise than the first of the highest rank, and that one is about authorization, the workspace, a contract or a required fact |
| ContextSelection.SelectClaims | src/context-resolver.js:158-173 | the greedy loop selects and drops what the ranking and the budget determine |
| ContextSelection.Partition | src/context-resolver.js:162-173 | every candidate is selected or dropped, as often as it occurs |
| ContextSelection.PicksFit | src/context-resolver.js:158-173 | the selection fills exactly the characters used and stays within the budget |
| ContextSelection.DropsJustified | src/context-resolver.js:162-173 | a claim dropped for want of room would not fit even beside the final selection |
| ContextSelection.RankingSorts | src/context-resolver.js:162 | the ranking is the candidates ordered by score, then id |
| ContextSelection.RequiredFirst | src/context-resolver.js:108-117 | a claim on a required subject is ranked before one that is no better but for that |
| ContextSelection.Resolve | src/context-resolver.js:103-189 | scores from authority, overlap and requirement; a partition within budget, best first, that leaves out nothing that fits and selects no two contradicting claims; valid iff nothing contradicts, nothing required is missing and every thread is known, and else the first of these is its cause |

## Left out

- SQLite itself, the schema, migrations, backfill and JSON encoding: rows are records and each statement is a step.
- `src/mcp-server.js` routing, prompts and orchestration, except the two writes of a contract repair; the HTTP, daemon, dashboard and command-line parts.
- Agents, threads, plans, approvals, memories, notifications, deliveries, run results and the event log: they do not decide what this model is about.
- The statuses `upgrade_pending` and `approval_waiting` are in the tables but no call in scope produces them; run statuses before `preparing`, and Global Run statuses before `preparing`, are not produced either: a graph's rows start at `preparing`.
- `createTask` outside a graph, `replaceStagedTaskGraph` and `scheduleRetry`: tasks enter through graph creation, with attempt 0. `createRun` on its own: a run without tasks does not occur, so the case in which `createTaskGraph` fills one is not modelled.
- `recoverGlobalRuns`: it only chooses which Global Run call to make.
- The limit of 1000 rows when a run's tasks are listed: runs are assumed to be smaller.
- Context snapshots and recompiled authorization manifests at a claim are two yes-or-no answers, outputs attested by a verdict a set per task.
- The agent a prepared task is bound to: a preparation with a bound agent and no attempt, worker or token is not told apart from one that has not begun.
- What cancelling a task does to leases, turn dispatches and agents; those calls are modelled where they are defined.
- `normalizeLease` drops the owner's token, so a cancelled task's worktree lease is released without one; the release allows that.
- `createTurnDispatch` returns an existing row for the same subject, purpose and revision: one row's life is modelled from its first write.
- ControlRegistry.Registry.CreateTaskGraph: a second call for an existing run changes nothing, but the rows it returns are not modelled.
- ControlRegistry.Registry.CreateGlobalRunGraph: inserts the Global Run's own row together with its graph, where the source creates that row earlier.
- RegistryFinish.RefreshForecast: speaks of tables in which no handoff row was rewritten from outside the registry; what a rewrite does to a dependency is `Handoffs.DetectionIsExact`, and no such dependency admits a claim (`RegistryOrder.ClaimNeedsHandoffs`).
- Acceptance.EvaluateTaskCompletion: the texts of causes and the fingerprint of a verdict are left out; whether text looks like a test command, an authority failure or a failure report is a parameter.
- ShellWords.DisplayArgv: characters are Unicode scalars, so lone surrogates do not occur.
- `reconcileNativeEvidence` beyond its decoder: matching rollout rows to items is mostly text comparison.
- ContextSelection.Resolve: tokens and conflict categories are given, since they come from text; the fingerprint of the snapshot and the category of its error are left out.
- Mailbox: server requests, connection start-up and closing; promises are their settlements, and a listener's own exceptions do not occur.
