# OpenRTC runtime: a Dafny model

OpenRTC runs many voice calls in one worker process on one event loop. What it promises about them is spread
over several small state machines: a call's task and the deferred report of its end, the pool of executors, the
admission filters in front of it, the tenant circuit breaker, the metrics store, and hot reload of agent code
while calls are live. This project models those machines and proves what every run of them keeps.

A step runs from one `await` to the next. What a foreign call does (it returns, raises, is cancelled, suspends)
is part of the event that drives the step, so a theorem about all event sequences covers every interleaving.
The objects the source updates in place are classes whose methods are proved equal to a step of the model; the
theorems are about all sequences of those steps.

| files | what they hold |
|---|---|
| `SessionRun`, `SessionLaws`, `OutcomeLaws` | one call: its phases, its status, its reported start and end, and exactly what leads to each |
| `CoroutineJobExecutor` | the executor object, each method the code between two awaits |
| `CoroutinePool`, `SupervisorLaws` | launching, retiring, draining, the consecutive-failure supervisor |
| `Routing`, `RequestFilter`, `RoutingLaws`, `Text` | which agent and tenant a call belongs to, for the session and for admission |
| `CircuitBreaker`, `BreakerRuns`, `Metrics`, `LoopLag` | the rolling window and what opens the breaker, the gauges and event buffer, the reported load |
| `Worker` | all of the above as one transition system |
| `WorkerLaws`, `GaugeLaws`, `BreakerLaws`, `DrainLaws`, `CloseLaws`, `AdmissionLaws` | what every run of a worker keeps |
| `SoftCapLaws`, `SuspendedFilterLaws`, `TenantCapLaws`, `BreakerKeyLaws`, `Scenarios` | when its caps and its breaker hold, how far caps can be overshot, and runs that do it |
| `FileWatcher`, `Reload`, `ReloadCoordinator`, `ReloadLaws` | debounced changes, rollback-safe re-import, rebinding live sessions |
| `Membership`, `LiveKitCli` | the signed message, the rewriting of the command line |

## Findings

Some properties the code is meant to have hold only under a condition. Each is stated with that condition, and
with an input or a run that fails without it.

- A call held open past its greeting loses its end when the executor has no end hook, whether it is cancelled or
  ends with SUCCESS: the executor asks for the deferral whether or not it can honour it
  (`SessionLaws.EndGuaranteedExactly`, `SessionLaws.DeferredEndLost`).
- The soft caps count accepted jobs only while the base decision does not suspend. A user filter that awaits
  something before it replies lets any number of requests past the cap together, one that replies at once does not
  (`SuspendedFilterLaws.BoundByAcceptedExactly`); counting the requests before the filter too, the bound holds in
  general (`SoftCapLaws.SoftCapBound`).
- A tenant id with surrounding whitespace is counted under the stripped id but admitted under the raw one, so a
  tenant's cap bounds nothing for such dispatches (`TenantCapLaws.TenantCapHoldsExactly`). Its breaker governs a
  dispatch exactly if that is not padded, or the breaker could never be open (`BreakerKeyLaws.RatioGovernsExactly`):
  a padded one can open it and still pass (`BreakerKeyLaws.OpenBreakerIsPassed`).
- A worker can own a room whose job its own routing then refuses: an unregistered name in the job metadata does
  not stop the ownership filter from looking further (`RequestFilter.OwnedYetRefused`).
- A drain waits for the rooms of the calls held open, since nothing in it cancels or shuts down anything
  (`DrainLaws.DrainReturnsExactly`).
- A failed reload restores only the module's own entry in `sys.modules`, and drops an entry that was None
  (`Reload.RollbackExactly`); an import that exits the process is not rolled back (`Reload.ExitKeepsTableExactly`)
  and ends the batch (`ReloadCoordinator.Coordinator.OnChange`).
- The rebind reads a session's current agent outside its `try`. Where that raises, the class is swapped, earlier
  sessions are moved, later ones are not, and nothing is reported (`ReloadLaws.RaisingRebindLosesReport`); the swaps
  reported are those made exactly if that never happens with a session to move (`ReloadLaws.ReportsExactly`).
- A change callback that suspends is cut short by the next batch, so callbacks all finish exactly if they do not
  suspend (`FileWatcher.CallbacksFinishExactly`); the reload coordinator's never does.
- The documentation of `draining` says that closing the pool sets it. The code does not, and the model follows
  the code: a closed pool refuses launches because it is no longer started.

## Model

| member | source | states |
|---|---|---|
| SessionLaws.EndReportedOnce | src/openrtc/core/wiring.py:179-259 | in every run a call reports at most one start and one end, the end last and only after the start; a finished task's end is missing exactly when it is still stored on the context, which only some configurations allow |
| SessionLaws.EndGuaranteedExactly | src/openrtc/runtime/coroutine_runtime.py:270-333 | no finished session goes unreported in any run if and only if there is an end hook, or the job is fake, or the context takes no deferral |
| SessionLaws.DeferredEndLost | src/openrtc/core/wiring.py:234-239 | the run that loses an end: a real call whose session starts, becomes the primary one and is held open with its end deferred; without a hook the end is lost whether the hold is cancelled or the room shuts down and the call is torn down with SUCCESS |
| SessionLaws.HeldCallIsLive | src/openrtc/core/wiring.py:227-241 | while a call is held open or torn down its end is unreported exactly if it was deferred, and teardown starts only after a shutdown request |
| SessionLaws.StatusAssignedOnce | src/openrtc/runtime/coroutine_runtime.py:187-233 | once a status is no longer RUNNING no return, exception, cancel, kill or close changes it |
| SessionLaws.SuccessExactly | src/openrtc/runtime/coroutine_runtime.py:274-307 | the status is SUCCESS if and only if the call completed before any kill; an undecided call is FAILED if killed and RUNNING if not |
| SessionLaws.SuccessMeans | src/openrtc/runtime/coroutine_runtime.py:290-307 | a successful call's body returned normally, and a held one was torn down after a shutdown request |
| SessionLaws.TaskMovesForward | src/openrtc/runtime/coroutine_runtime.py:235-333 | each step of the task itself lowers a rank, nothing from outside moves it, and done stays done |
| SessionLaws.WaitsExactly | src/openrtc/runtime/coroutine_runtime.py:290-306 | an unfinished task has a step of its own in every phase except one: held open, with neither a shutdown requested nor a cancellation |
| SessionLaws.FinishesExactly | src/openrtc/runtime/coroutine_runtime.py:235-333 | a task can come to its end without anybody cancelling it or shutting its room down if and only if it is not held open, nor sure to be |
| SessionLaws.CancelledUnstarted | src/openrtc/runtime/coroutine_runtime.py:187-210 | a job killed or closed before its first step never starts: nothing of its session is ever reported |
| SessionLaws.CancelledHold | src/openrtc/runtime/coroutine_runtime.py:299-305 | a call killed or closed while held open is never torn down and never succeeds |
| OutcomeLaws.FailedExactly | src/openrtc/runtime/coroutine_runtime.py:187-307 | in any run the status is FAILED if and only if, while it was RUNNING, an unfinished task was killed, a session could not be built, the body or its inline end raised or was cancelled on its way out, a hold was cancelled, or a close wrote over it; and SUCCESS if and only if teardown, or the entrypoint of a call not kept open, came first |
| OutcomeLaws.LeftRunningExactly | src/openrtc/runtime/coroutine_runtime.py:187-333 | a task past its status is still RUNNING if and only if its setup raised or it was cancelled unstarted or in teardown, with no kill before its end and no close that wrote over it |
| OutcomeLaws.TaskEndsExactly | src/openrtc/runtime/coroutine_runtime.py:235-333 | the task itself ends cancelled exactly if a cancellation got out of it, with its setup's error exactly if that raised, and normally otherwise |
| OutcomeLaws.ReportsExactly | src/openrtc/core/wiring.py:199-241 | a session reports a start exactly if it was built, a failure exactly with the error its body raised, and an end, reported or stored, exactly as its body ended |
| OutcomeLaws.FeedTells | src/openrtc/observability/metrics.py:118-179 | each of these reports is one more row of the stream, with the call's agent and tenant, while there is room |
| CoroutineJobExecutor.Executor.FinishSession | src/openrtc/core/wiring.py:144-156 | one finish in the metrics and one outcome in the breaker, a success exactly without an error |
| CoroutineJobExecutor.Executor.RunSessionEnd | src/openrtc/core/wiring.py:247-259 | fires the stored end once and clears it; without one nothing changes |
| CoroutineJobExecutor.Executor.RunSessionFinally | src/openrtc/core/wiring.py:218-244 | defers the end exactly for a real job with a primary session whose executor asked for it, otherwise reports it inline |
| CoroutineJobExecutor.Executor.RecordFailure | src/openrtc/core/wiring.py:224-226 | an exception of the body is recorded as a failure, and not as an outcome |
| CoroutineJobExecutor.Executor.StartTask | src/openrtc/runtime/coroutine_runtime.py:235-273 | the first step: an error before the `try` ends the task unjudged, an unbuildable session fails it, otherwise the start is recorded |
| CoroutineJobExecutor.Executor.ResumeTask | src/openrtc/runtime/coroutine_runtime.py:273-333 | every later step of the task, with the store's and the breaker's calls that go with it |
| CoroutineJobExecutor.Executor.KillTask | src/openrtc/runtime/coroutine_runtime.py:202-210 | kill requests the cancellation of an unfinished task and marks a running job FAILED; a finished one is left alone; either way the executor is no longer started |
| CoroutineJobExecutor.Executor.Start | src/openrtc/runtime/coroutine_runtime.py:168-170 | marks the executor started and touches nothing of its job |
| CoroutineJobExecutor.Executor.RequestShutdown | src/openrtc/runtime/coroutine_runtime.py:242-244 | the shutdown future is done after the first request, and further ones change nothing |
| CoroutineJobExecutor.Executor.AcloseCancel | src/openrtc/runtime/coroutine_runtime.py:187-200 | close requests the cancellation of an unfinished task and awaits it; with a finished one it is over at once and the executor no longer started |
| CoroutineJobExecutor.Executor.AcloseFinish | src/openrtc/runtime/coroutine_runtime.py:187-200 | close marks the job FAILED only if the cancelled task left it RUNNING, and the executor is no longer started |
| CoroutineJobExecutor.FeedAppend | src/openrtc/observability/metrics.py:129-179 | reporting in several steps feeds the store as reporting at once |
| CoroutineJobExecutor.JudgeAppend | src/openrtc/core/circuit_breaker.py:53-76 | the same for the breaker |
| CoroutinePool.Pool.LaunchJob | src/openrtc/runtime/coroutine_runtime.py:670-702 | refused by a stopped or draining pool; a failing launch leaves no executor and counts as a failure; otherwise the new executor is tracked and its four events are out |
| CoroutinePool.Pool.OnExecutorDone | src/openrtc/runtime/coroutine_runtime.py:751-757 | takes the executor off the list, emits its closed event and judges its status, once; an untracked one changes nothing |
| CoroutinePool.Pool.ObserveExecutorStatus | src/openrtc/runtime/coroutine_runtime.py:759-785 | success resets the failure count, anything else raises it, and the callback is called once when it reaches the limit |
| CoroutinePool.Pool.AcloseBegin | src/openrtc/runtime/coroutine_runtime.py:631-655 | closing stops the pool and cancels exactly the executors tracked then, and does not set the draining flag |
| SupervisorLaws.SupervisorExact | src/openrtc/runtime/coroutine_runtime.py:759-785 | over any sequence of finished executors the count is the trailing run of failures, the flag says whether it reached the limit, and the callback was called once for each run that did, with the limit |
| SupervisorLaws.OneAlertPerRun | src/openrtc/runtime/coroutine_runtime.py:769-785 | a stretch of failures alerts at most once, exactly when it crosses the limit |
| WorkerLaws.EveryEndReportedOnce | src/openrtc/core/wiring.py:179-259 | in a whole worker with other calls, launches, kills and drains interleaved: no call reports two starts or ends, and with the end hook wired every finished one has its end |
| WorkerLaws.ReachableJobsOk | src/openrtc/runtime/coroutine_runtime.py:235-333 | every job of every reachable worker state is sound, and one whose agent or tenant does not resolve never starts |
| WorkerLaws.ReachablePoolOk | src/openrtc/runtime/coroutine_runtime.py:670-702 | exactly the launched jobs whose done callback has not run are tracked, each once |
| WorkerLaws.PoolEventsBalanced | src/openrtc/runtime/coroutine_runtime.py:670-757 | in every reachable state created minus closed events are the tracked executors, each executor's events are those of its life so far in order, and the supervisor is exact |
| WorkerLaws.ObservedIsFinal | src/openrtc/runtime/coroutine_runtime.py:751-785 | in every reachable state the supervisor has judged each closed executor once, in the order of the closed events, and as a success exactly if the final status of its job is SUCCESS |
| WorkerLaws.LaunchEffect | src/openrtc/runtime/coroutine_runtime.py:670-702 | what a launch does to the list and the events |
| AdmissionLaws.JobsAreRuns | src/openrtc/runtime/coroutine_runtime.py:235-333 | each job of each reachable worker state stands where the events of its own task lead, so that every law about one call holds for all of them |
| AdmissionLaws.RunsExactly | src/openrtc/runtime/coroutine_runtime.py:670-702 | a job runs if and only if it was launched by a started pool that was not draining, and every job on its way there was accepted |
| AdmissionLaws.BuiltExactly | src/openrtc/core/wiring.py:85-102 | in every reachable state a running job has the dispatch it was offered with, its session is of the agent routing finds and the tenant it resolves, and it can be built if and only if both resolve |
| AdmissionLaws.TurnedDownStays | src/openrtc/runtime/coroutine_runtime.py:670-702 | a job rejected by the user's filter, withdrawn, or refused by the pool never runs |
| GaugeLaws.GaugesConserved | src/openrtc/observability/metrics.py:129-179 | in every reachable state the gauge of each agent and tenant is its number of live sessions, no zero entry is kept, both maps sum to the live sessions, started is live plus finished, and failures are the sessions whose body raised |
| GaugeLaws.BegunSplits | src/openrtc/observability/metrics.py:129-179 | every begun session is live or ended and not both, and only begun ones fail |
| GaugeLaws.StepFollows | src/openrtc/core/wiring.py:199-241 | a step of a call only appends to its reports, in the order start, failure, end |
| DrainLaws.DrainGuarantee | src/openrtc/runtime/coroutine_runtime.py:598-624 | from the moment a worker drains no later step tracks a new executor or raises the work left, and a drain that returned leaves none tracked ever after |
| DrainLaws.DrainBegins | src/openrtc/runtime/coroutine_runtime.py:598-624 | from a request to drain on, awaited or not, the pool drains for good, and an awaited drain is under way or has returned |
| DrainLaws.TurnDrains | src/openrtc/runtime/coroutine_runtime.py:670-702 | while draining, a finished task and a delivered done callback each lower the work left by one |
| DrainLaws.DrainReturnsSettled | src/openrtc/runtime/coroutine_runtime.py:608-624 | once drain has returned nothing is tracked, every launched call is over, as many executors were closed as created, and with the end hook every started session has its end and every gauge is gone |
| DrainLaws.DrainWaitsExactly | src/openrtc/runtime/coroutine_runtime.py:617-622 | for each tracked executor of a reachable state, either its callback is due or its task has a step of its own, except exactly while its call is held open, not asked to end and not cancelled |
| DrainLaws.DrainReturnsExactly | src/openrtc/runtime/coroutine_runtime.py:617-624 | with a drain under way the event loop can bring it to its return, without a cancellation or a shutdown request, if and only if no tracked call is held up |
| CloseLaws.CloseSettles | src/openrtc/runtime/coroutine_runtime.py:631-668 | a close whose executors have all been closed and called back leaves nothing tracked and no later launch; a job it found is RUNNING only if its task was already over, with no status written, when the close reached it |
| CloseLaws.CloseDecidesExactly | src/openrtc/runtime/coroutine_runtime.py:187-200 | after an executor's close has returned its status is RUNNING if and only if the close found the task over with nothing written |
| CloseLaws.CloseReturns | src/openrtc/runtime/coroutine_runtime.py:187-200 | a close under way returns exactly once the task is over, and leaves FAILED where the status was RUNNING |
| RequestFilter.AdmissionAgreesWithRouting | src/openrtc/routing/request_filter.py:86-112 | without a router, or with one that defers, whenever routing finds an agent admission attributed the job to the same one, and the worker owned the room exactly when it was not the default's doing |
| RequestFilter.RoutingRefusesExactly | src/openrtc/routing/metadata_routing.py:25-33 | with agents registered, routing refuses exactly when the first metadata source that names an agent names an unregistered one |
| RequestFilter.OwnedYetRefused | src/openrtc/routing/request_filter.py:47-55 | a dispatch the ownership filter accepts and routing refuses |
| RequestFilter.OwnsRoomIffExplicitOwner | src/openrtc/routing/request_filter.py:32-55 | the ownership filter says yes exactly when metadata or the room name points to a registered agent |
| RequestFilter.ChainUnrolled | src/openrtc/routing/resolver.py:86-98 | the chain of strategies decides by job metadata, room metadata, room prefix, default, in that order |
| RequestFilter.PrefixOwnerExists | src/openrtc/routing/room_prefix_routing.py:14-27 | the prefix strategy finds an agent exactly when some registered name and a dash start the room name |
| RoutingLaws.PrefixOwnerExactly | src/openrtc/routing/room_prefix_routing.py:14-27 | that agent is the first one, in registration order, whose name and a dash start the room name |
| RoutingLaws.MetadataNames | src/openrtc/routing/base_routing.py:31-56 | metadata names an agent exactly if it is, or is the JSON of, a mapping with that string under `agent`, or under `demo` and none under `agent`, whitespace around it aside |
| RoutingLaws.RoutesExactly | src/openrtc/routing/resolver.py:47-117 | routing decides, for every registry, dispatch and router: the router's choice, whom the job's metadata names, whom the room's names, the first agent by prefix, the first registered; an unregistered name is refused |
| RoutingLaws.AttributesExactly | src/openrtc/routing/request_filter.py:86-112 | admission files a job under the first registered agent its metadata, its room's or the prefix points to, else the first registered, and passes over unregistered names |
| RoutingLaws.TenantExactly | src/openrtc/routing/request_filter.py:160-170 | admission's tenant is the job's, else the room's, and the default for an empty one or none |
| RoutingLaws.SessionTenantExactly | src/openrtc/utils/validation.py:94-111 | the session's tenant is that value stripped, if it then has 1 to 128 ASCII letters, digits, dashes and underscores and nothing else; otherwise the session is rejected |
| RequestFilter.ViewShowsDispatch | src/openrtc/core/session_view.py:65-87 | before connect the session's view shows what admission read from the dispatch |
| RequestFilter.SessionTenantIsStripped | src/openrtc/observability/base_observer.py:119-141 | the session's tenant is the admission tenant stripped, and the session is rejected exactly when that is malformed |
| RequestFilter.TenantKeysAgree | src/openrtc/utils/validation.py:94-111 | admission and session use the same tenant key exactly when the dispatched value is not padded |
| RequestFilter.PaddedTenantDisagrees | src/openrtc/routing/request_filter.py:160-170 | a dispatch for which the keys differ |
| RequestFilter.ActiveJobsByAgent | src/openrtc/routing/request_filter.py:173-193 | the counter holds each agent's number of jobs and no zero entries |
| RequestFilter.BuildFilter | src/openrtc/core/pool.py:330-391 | the constructor's layering: breaker over tenant cap over agent cap over base |
| RequestFilter.StackDecides | src/openrtc/routing/request_filter.py:115-270 | a stacked filter rejects once when any layer objects and otherwise replies as its base, so exactly one reply unless a user filter is reached that gives none or several |
| AdmissionLaws.AgentLayerExactly | src/openrtc/routing/request_filter.py:136-155 | in every reachable state the agent layer refuses a dispatch if and only if its agent is capped and has as many live sessions as the cap or more, and otherwise passes it on |
| AdmissionLaws.TenantLayerExactly | src/openrtc/routing/request_filter.py:222-238 | the same for the tenant layer, by the dispatched tenant |
| AdmissionLaws.AdmitsExactly | src/openrtc/routing/request_filter.py:115-270 | in every reachable state a worker replies with one rejection exactly if the breaker of the dispatched tenant is open or its tenant or agent is full, and otherwise as the base decision does |
| SoftCapLaws.SoftCapBound | src/openrtc/routing/request_filter.py:115-157 | for a capped agent or tenant whose sessions are filed under it, if no offer that passes the layers finds more than k others still waiting, live plus waiting never exceed the cap by more than k, in any run and however long a user filter takes to reply |
| SoftCapLaws.AgentCapBound | src/openrtc/routing/request_filter.py:115-157 | for an agent the bound needs nothing of the requests |
| SoftCapLaws.AgentsAreFaithful | src/openrtc/routing/request_filter.py:86-112 | a session that uses an agent was filed under it at admission |
| SoftCapLaws.TenantIsFaithfulExactly | src/openrtc/routing/request_filter.py:208-240 | for a tenant that holds exactly when the dispatched value is not padded |
| SoftCapLaws.LetThroughBelowCap | src/openrtc/routing/request_filter.py:136-155 | a job filed under a capped resource passes the layers only while its gauge is below the cap |
| SuspendedFilterLaws.BoundByAcceptedExactly | src/openrtc/routing/request_filter.py:146-155 | that accepted jobs alone bound the overshoot of an agent's cap holds if and only if the base decision is not a user filter that may suspend before it replies |
| SuspendedFilterLaws.ReleaseFindsNobody | src/openrtc/routing/request_filter.py:146-155 | the run that breaks it: a burst passes the cap together and is then accepted and started one by one, no acceptance finding anybody waiting |
| TenantCapLaws.TenantCapHoldsExactly | src/openrtc/routing/request_filter.py:208-240 | over any family of dispatches a tenant's cap bounds every run if and only if each dispatch that becomes a session of the tenant equals its stripped form |
| TenantCapLaws.PaddedTenantFloods | src/openrtc/routing/request_filter.py:160-170 | a padded dispatch that no other layer stops, repeated, yields any number of live sessions of the tenant under any cap |
| BreakerLaws.BreakerIsRun | src/openrtc/core/wiring.py:150-155 | in every run of a worker its breaker is the one that results from the questions admission asked and the outcomes sessions reported, in order |
| BreakerLaws.ClockIsLatest | src/openrtc/core/circuit_breaker.py:53-56 | the clock outcomes and questions are stamped with shows the latest time of the run |
| BreakerLaws.EachEndJudgedOnce | src/openrtc/core/wiring.py:150-155 | in every reachable state the successes reported for a tenant are as many as its sessions that ended normally, and the failures as many as those that ended otherwise |
| BreakerLaws.CircuitRefusesExactly | src/openrtc/routing/request_filter.py:256-268 | in every reachable state the circuit layer rejects a dispatch exactly while less than a cooldown has passed since the ended sessions of the dispatched tenant last opened its breaker, and then the whole filter rejects it |
| BreakerLaws.PaddedTenantEvades | src/openrtc/routing/request_filter.py:256-268 | a dispatch whose tenant is padded is never rejected by the circuit layer, however many of the tenant's sessions fail |
| BreakerKeyLaws.RatioGovernsExactly | src/openrtc/routing/request_filter.py:256-268 | in every run the circuit layer rejects a dispatch exactly while the breaker its tenant's sessions opened is open, if and only if the dispatch is not padded, or the failure ratio is at least one, or the cooldown is not positive |
| BreakerKeyLaws.CircuitGovernsExactly | src/openrtc/core/wiring.py:150-155 | the same for any rule that some number of failures at once trips: if and only if the dispatch is not padded |
| BreakerKeyLaws.OpenBreakerIsPassed | src/openrtc/routing/request_filter.py:256-268 | the run that breaks it: a padded dispatch whose sessions fail opens its tenant's breaker, an unpadded one is then rejected, and the padded one still passes |
| BreakerKeyLaws.RatioTripsAtOnce | src/openrtc/core/circuit_breaker.py:61-67 | so many failures and nothing else trip the breaker exactly if there are enough samples and the ratio is below one |
| CircuitBreaker.TenantCircuitBreaker.RecordOutcome | src/openrtc/core/circuit_breaker.py:53-76 | the outcome joins the pruned queue even while open; only a closed breaker opens, and only opening clears the queue |
| CircuitBreaker.TenantCircuitBreaker.ShouldReject | src/openrtc/core/circuit_breaker.py:78-88 | rejects while open, and closes the breaker on the first question after the cooldown |
| CircuitBreaker.PruneQueue | src/openrtc/core/circuit_breaker.py:90-93 | pops from the left until the first sample inside the window |
| CircuitBreaker.CountFailures | src/openrtc/core/circuit_breaker.py:61-65 | counts the positions of the queue that are not successes |
| CircuitBreaker.FailuresArePositions | src/openrtc/core/circuit_breaker.py:64 | the failures of a queue are its positions that are not successes, in whatever order they stand |
| CircuitBreaker.TenantCircuitBreaker.FailuresTrip | src/openrtc/core/circuit_breaker.py:61-65 | a queue trips exactly if it is long enough and its failures exceed the ratio of it |
| CircuitBreaker.PruneIsWindow | src/openrtc/core/circuit_breaker.py:90-93 | on a queue in time order popping from the left is filtering by the window |
| BreakerRuns.PruneLeavesTail | src/openrtc/core/circuit_breaker.py:90-93 | what pruning leaves of a queue in time order is its tail: everything before it is too old, nothing in it is |
| BreakerRuns.OpensExactly | src/openrtc/core/circuit_breaker.py:53-76 | in any run a call opens the tenant's breaker if and only if it is an outcome of the tenant that finds it closed and, of the tenant's outcomes since the last opening that lie in the window, there are enough and too large a share failed; it is then open until a cooldown later |
| BreakerRuns.RejectsExactly | src/openrtc/core/circuit_breaker.py:78-88 | a question is answered with a rejection if and only if less than a cooldown has passed since a call that opened the breaker |
| CircuitBreaker.BreakerRefinesAccount | src/openrtc/core/circuit_breaker.py:53-93 | after any run with a non-decreasing clock the queue is the window of all outcomes since the last opening, and the breaker is marked open exactly when that account says so |
| CircuitBreaker.WindowRefinement | src/openrtc/core/circuit_breaker.py:56-76 | each outcome opens the breaker exactly when it is not open and the declared window of the history trips the rule; otherwise the queue becomes that window |
| CircuitBreaker.AnswerIsCooldown | src/openrtc/core/circuit_breaker.py:78-88 | in any run the answer is "less than a cooldown since the last opening", despite lazy deletion |
| CircuitBreaker.RecoveredAfterCooldown | src/openrtc/core/circuit_breaker.py:78-88 | an opening is recovered from only after its cooldown |
| CircuitBreaker.NoticesAlternate | src/openrtc/core/circuit_breaker.py:72-97 | a tenant's opened and closed notifications strictly alternate and the last one tells the state |
| CircuitBreaker.TenantsIsolated | src/openrtc/core/circuit_breaker.py:53-97 | a tenant's answers and state in a run are those of the run restricted to its own calls |
| CircuitBreaker.HealthyTenantNeverOpens | src/openrtc/core/circuit_breaker.py:61-67 | a tenant without failures is never open and never rejected in any run, whatever its neighbours do |
| Metrics.RuntimeMetricsStore.RecordSessionStarted | src/openrtc/observability/metrics.py:129-142 | counter, both gauges and the stream row of a start |
| Metrics.RuntimeMetricsStore.RecordSessionFinished | src/openrtc/observability/metrics.py:144-154 | both gauges lowered, removed at zero, and the stream row of an end |
| Metrics.RuntimeMetricsStore.RecordSessionFailure | src/openrtc/observability/metrics.py:164-179 | the failure counter, the last error and the stream row |
| Metrics.RuntimeMetricsStore.AppendStreamEvent | src/openrtc/observability/metrics.py:118-127 | a full buffer counts the row instead of keeping it |
| Metrics.RuntimeMetricsStore.DrainStreamEvents | src/openrtc/observability/metrics.py:198-213 | hands over the buffer, with an overflow row if any was dropped, and empties it |
| Metrics.RuntimeMetricsStore.GetState | src/openrtc/observability/metrics.py:64-77 | the picklable form of the whole store |
| Metrics.RuntimeMetricsStore.SetState | src/openrtc/observability/metrics.py:79-116 | restores the pickled store |
| Metrics.PickleRoundTrip | src/openrtc/observability/metrics.py:64-116 | loading a pickled store gives the store back, gauges and buffer included |
| Metrics.BufferHoldsHead | src/openrtc/observability/metrics.py:118-127 | in any run, pickling included, the buffer is the first 256 rows since the last drain and the overflow counts the others |
| Metrics.DrainDeliversBatch | src/openrtc/observability/metrics.py:198-213 | each drain delivers the rows since the previous one: the first 256 in order, then one row with the number of the rest exactly if there is one |
| Metrics.RowsConserved | src/openrtc/observability/metrics.py:118-213 | over any run rows emitted are rows delivered, reported dropped or still pending |
| Metrics.BatchAccountsForAll | src/openrtc/observability/metrics.py:198-213 | a delivered batch accounts for every row emitted since the last one |
| Metrics.RowsTellReports | src/openrtc/observability/metrics.py:118-179 | the pending rows are the reports since the last drain, one by one and in order, with their agent, tenant and the first 500 characters of an error |
| Metrics.CountersTellReports | src/openrtc/observability/metrics.py:129-179 | over any run the counters are the numbers of starts and failures reported, the last error is that of the last failure, and the last agent that of the last start or failure |
| Metrics.DropOne | src/openrtc/observability/metrics.py:156-162 | lowers a count and removes it at zero |
| LoopLag.LoadGauge.RecordLoopLag | src/openrtc/runtime/coroutine_runtime.py:589-591 | one sample folded into the smoothed lag |
| LoopLag.LoadGauge.CurrentLoad | src/openrtc/runtime/coroutine_runtime.py:809-817 | the load reaches any level exactly if the sessions make up that share of the pool, or, up to full, the smoothed lag that share of 60 ms |
| LoopLag.LoadReaches | src/openrtc/runtime/coroutine_runtime.py:809-817 | the same of the load as a function of the executors and the lag |
| LoopLag.LagStaysBetween | src/openrtc/runtime/coroutine_runtime.py:589-591 | the smoothed lag lies between zero and the largest sample |
| LoopLag.LagCatchesUp | src/openrtc/runtime/coroutine_runtime.py:589-591 | after n samples of at least L it is at least L times one minus 0.8 to the n |
| LoopLag.SaturationShowsExactly | src/openrtc/runtime/coroutine_runtime.py:589-591 | any n samples of at least L above 60 ms make the worker report itself full if and only if 0.8 to the n is at most 1 - 60 / L |
| LoopLag.SaturationShowsSoon | src/openrtc/runtime/coroutine_runtime.py:809-817 | 240 / (L - 60) samples are always enough |
| FileWatcher.CollapseChanges | src/openrtc/runtime/file_watcher.py:295-310 | grouping by path in first-seen order and choosing a type computes the collapse |
| FileWatcher.CollapseMeans | src/openrtc/runtime/file_watcher.py:295-310 | each touched path once, deleted if ever deleted, else created if ever created, else modified |
| FileWatcher.CollapseInOrder | src/openrtc/runtime/file_watcher.py:295-310 | the paths stay in the order in which they were first seen |
| FileWatcher.CollapseInStages | src/openrtc/runtime/file_watcher.py:295-310 | collapsing what was collapsed together with what follows is collapsing it all |
| FileWatcher.CollapseOfDistinct | src/openrtc/runtime/file_watcher.py:295-310 | a list with each path once is left as it is |
| FileWatcher.Watcher.WatchRound | src/openrtc/runtime/file_watcher.py:205-222 | one round of the watch loop: unknown kinds are dropped, paths resolved, and a batch that is not empty is buffered |
| FileWatcher.TranslateExactly | src/openrtc/runtime/file_watcher.py:205-222 | each notification of a known kind becomes one change of that kind under its resolved path, in order, and no other does |
| FileWatcher.UnknownKindsIgnored | src/openrtc/runtime/file_watcher.py:205-222 | notifications of unknown kinds alone restart no timer and cut no callback short |
| FileWatcher.Watcher.HandleChangeBatch | src/openrtc/runtime/file_watcher.py:262-270 | the batch is appended and the timer restarted, cancelling a flush in progress |
| FileWatcher.Watcher.FlushAfter | src/openrtc/runtime/file_watcher.py:272-292 | takes all pending changes and hands over their collapse, if there are any |
| FileWatcher.Watcher.StopWatching | src/openrtc/runtime/file_watcher.py:157-180 | cancels the flush and drops what is pending; a second stop changes nothing |
| FileWatcher.DebounceConserves | src/openrtc/runtime/file_watcher.py:262-292 | in any run, while watching, changes flushed followed by changes pending are changes received, and pending changes have an armed timer |
| FileWatcher.FlushesHandCollapsed | src/openrtc/runtime/file_watcher.py:272-292 | each flush hands over the collapse of what came since the last one, no path twice |
| FileWatcher.BufferResolved | src/openrtc/runtime/file_watcher.py:208-222 | what is pending, and what came between two flushes, names each file by its resolved path |
| FileWatcher.CallbacksFinishExactly | src/openrtc/runtime/file_watcher.py:262-292 | no callback is cut short in any run if and only if callbacks do not suspend |
| FileWatcher.CallbacksAccounted | src/openrtc/runtime/file_watcher.py:262-292 | in any run each list handed over was worked through, was cut short by a batch or a stop, or is the one being worked on |
| FileWatcher.SuspendedCallbackIsCut | src/openrtc/runtime/file_watcher.py:265-266 | a batch that arrives while the callback is suspended cancels it, and its changes are not handed again |
| Reload.ModuleTable.ReloadAgentModule | src/openrtc/reload/module_reloader.py:30-98 | a source that cannot be read, compiled or located fails before the table is touched, and code that raises is rolled back; a module that ran swaps in the agent class bound to the current one's name, or else the first it defines itself, and fails exactly if it has neither |
| Reload.SelectionExactly | src/openrtc/reload/module_reloader.py:86-98 | that choice, by the places of the bindings |
| Reload.RollbackExactly | src/openrtc/reload/module_reloader.py:67-82 | a failed reload leaves the module table as it was if and only if the code changed no other entry and its own was not None |
| Reload.ExitKeepsTableExactly | src/openrtc/reload/module_reloader.py:70-82 | an exception that is no Exception is not rolled back: the module table is as it was if and only if the code changed no other entry and put its own back itself |
| Reload.FirstLocal | src/openrtc/core/discovery.py:69-83 | the fallback finds an agent class exactly if the module defines one |
| Reload.LiveSessionRegistry.OnSessionStart | src/openrtc/reload/session_registry.py:36-40 | files the session under its job |
| Reload.LiveSessionRegistry.OnSessionEnd | src/openrtc/reload/session_registry.py:42-44 | drops the job's session, and tolerates an unpaired end |
| Reload.RemoveInOrder | src/openrtc/reload/session_registry.py:42-44 | the other sessions keep their order |
| Reload.LiveSessionRegistry.SessionsFor | src/openrtc/reload/session_registry.py:46-52 | the live sessions of an agent, all of them and no others, in the order they were registered |
| Reload.OfAgentInOrder | src/openrtc/reload/session_registry.py:46-52 | they stand in the order in which they were registered |
| Reload.CarryHistory | src/openrtc/reload/rebind.py:38-54 | the new agent starts with the old one's conversation |
| Reload.RebindAgent | src/openrtc/reload/rebind.py:57-103 | the config has the new class; unless it is the old one, exactly the agent's live sessions that are not pinned, not on it, not failing and not behind one whose agent cannot be read move to it with their conversation, all others stay; the count returned is the number of sessions whose class changed, and the rebind raises exactly if it meets one that cannot be read |
| Reload.UnreachedMeans | src/openrtc/reload/rebind.py:81-88 | what such a rebind does not get to: among the agent's sessions, those from the first unreadable one on |
| ReloadCoordinator.Coordinator.ConfigsBySourcePath | src/openrtc/reload/coordinator.py:82-88 | groups the agents by resolved source path in registration order, skipping those without one |
| ReloadCoordinator.Coordinator.ReloadOne | src/openrtc/reload/coordinator.py:90-116 | one attempt: a failure is reported and changes neither class nor session; a success swaps the class and reports the count; an import or a rebind that raises escapes unreported |
| ReloadCoordinator.Coordinator.OnChange | src/openrtc/reload/coordinator.py:68-80 | a batch makes the planned attempts in order, each change times each of its agents, deletions skipped, up to and including the first that escapes |
| ReloadCoordinator.OneAttemptPerWrite | src/openrtc/reload/coordinator.py:68-80 | a batch plans exactly as many attempts at an agent as there are changes that write its source file |
| ReloadCoordinator.WritesExactly | src/openrtc/reload/coordinator.py:71-83 | in a list with each file once under its resolved name, a file is written once by the change that names it unless that is a deletion, and otherwise not at all |
| ReloadCoordinator.MatchingMeans | src/openrtc/reload/coordinator.py:82-88 | the agents of a changed path are those whose source resolves to it, each once |
| ReloadCoordinator.MatchingInOrder | src/openrtc/reload/coordinator.py:82-88 | they stand in registration order |
| ReloadCoordinator.PlanConcat | src/openrtc/reload/coordinator.py:68-80 | a batch is worked off change by change, in order |
| ReloadCoordinator.PlanOfOne | src/openrtc/reload/coordinator.py:68-80 | a deletion calls for nothing, any other change for one attempt at each agent of its file, in registration order |
| ReloadLaws.SessionsAreCurrent | src/openrtc/reload/rebind.py:57-103 | in every reachable state each session that has not ended runs its agent's registered class, unless at the last change of that class it was pinned, failed to move, stood behind a session that stopped the rebind, or was built but not registered |
| ReloadLaws.LastChangeMeans | src/openrtc/reload/rebind.py:75-78 | the change the previous row speaks of is the last one that put another class in place |
| ReloadLaws.PhaseExactly | src/openrtc/reload/session_registry.py:36-44 | a session is there exactly if it was built, over exactly if it ended, and registered exactly if it was registered and has not ended |
| ReloadLaws.RegistryInOrder | src/openrtc/reload/session_registry.py:36-52 | in every reachable state the order a rebind follows lists the registered sessions, each once |
| ReloadLaws.PinnedExactly | src/openrtc/reload/pin.py:32-44 | a session is pinned exactly if it was pinned and not unpinned since |
| ReloadLaws.PinHolds | src/openrtc/reload/pin.py:32-44 | a session pinned throughout a stretch of a run keeps its class over it |
| ReloadLaws.HistoryKept | src/openrtc/reload/rebind.py:38-54 | whatever was swapped, a session still holds everything said in it, in order |
| ReloadLaws.SwapsReported | src/openrtc/reload/coordinator.py:105-116 | over any run the swaps reported, and those lost with a rebind that raised, add up to the class changes made to any session |
| ReloadLaws.ReportsExactly | src/openrtc/reload/rebind.py:81-103 | the swaps reported over a run are the class changes made in it if and only if no rebind raised that had an unpinned, movable session of its agent, on another class, registered before the first unreadable one |
| ReloadLaws.RaisingRebindLosesReport | src/openrtc/reload/rebind.py:81-88 | a rebind that raises at the second of two sessions has swapped the class and moved the first, and reports nothing |
| ReloadLaws.OtherAgentsUntouched | src/openrtc/reload/rebind.py:81-102 | an attempt leaves the classes and the sessions of other agents alone |
| ReloadLaws.FailedAttemptKeepsWorld | src/openrtc/reload/coordinator.py:90-104 | a failed attempt changes no class and no session, and leaves the module table exactly under the rollback's condition |
| ReloadLaws.SwappedAttemptReports | src/openrtc/reload/coordinator.py:90-116 | an attempt that swaps the class reports the number of sessions that changed, unless its rebind raises; an import that escapes changes no class and reports nothing; either way the module table is what the import left |
| ReloadLaws.AgentOncePerFlush | src/openrtc/runtime/file_watcher.py:272-292 | each flush tries each agent at most once: once if the changes since the last flush leave its source file written, not at all if they leave it untouched or deleted |
| Membership.CanonicalRoundTrip | src/openrtc/core/membership.py:35-43 | the signed bytes are ASCII and decode, by section 7 of RFC 8259, to the three fields |
| Membership.CanonicalInjective | src/openrtc/core/membership.py:35-43 | two memberships with the same signed bytes are the same, whatever quotes, escapes or newlines they hold |
| Membership.EscapeCharRoundTrip | src/openrtc/core/membership.py:41-43 | each escaped character, surrogate pairs included, reads back as itself and leaves the rest |
| Membership.EscapeExactly | src/openrtc/core/membership.py:41-43 | each character is escaped with the shortest ASCII text that spells it, its digits in lower case, and there is no other such text |
| Membership.AnyCurrentSecretVerifies | src/openrtc/core/membership.py:75-101 | a fresh signature under any current secret is accepted exactly when version and age are in order |
| Membership.AcceptedExactly | src/openrtc/core/membership.py:75-101 | a token is accepted exactly if it is the MAC of the message of these fields under a current secret, the version is the expected one and the age is within bounds; otherwise the first check that fails is the one named |
| Membership.SignatureIsBound | src/openrtc/core/membership.py:75-101 | with a collision-free MAC a signature is valid only for the version, worker and timestamp it was made for |
| LiveKitCli.StripOwnFlags | src/openrtc/cli/livekit_cli.py:42-83 | the index loop computes the command line without its OpenRTC-only units |
| LiveKitCli.StripStep | src/openrtc/cli/livekit_cli.py:58-83 | what one round of the loop drops and keeps |
| LiveKitCli.UnitsRender | src/openrtc/cli/livekit_cli.py:42-83 | cutting a command line into units loses nothing |
| LiveKitCli.StripRemovesOwnOptions | src/openrtc/cli/livekit_cli.py:42-83 | no OpenRTC-only option is left before the first `--`, and a line without any is unchanged |
| LiveKitCli.OwnOptionExactly | src/openrtc/cli/livekit_cli.py:61-77 | a token is OpenRTC's own exactly if it is one of its options, alone or followed by `=` and anything |
| LiveKitCli.StripIdempotent | src/openrtc/cli/livekit_cli.py:42-83 | stripping twice is stripping once |
| LiveKitCli.StripConcat | src/openrtc/cli/livekit_cli.py:42-83 | stripping distributes over concatenation at complete units, and what happens elsewhere |
| LiveKitCli.InjectWorkerStartDevConsole | src/openrtc/cli/livekit_cli.py:96-113 | the positionals of a worker command become flags |
| LiveKitCli.InjectExactly | src/openrtc/cli/livekit_cli.py:86-129 | an injected line starts with the first positional as the value of `--agents-dir` and, for a worker command, a second one as that of `--metrics-jsonl`, with the rest as it was; any other line is unchanged |
| LiveKitCli.InjectIdempotent | src/openrtc/cli/livekit_cli.py:116-129 | injecting twice is injecting once |
| LiveKitCli.HandoffDropsPositionals | src/openrtc/cli/livekit_cli.py:96-129 | what LiveKit sees of an injected worker command is the strip of the tokens after its positionals |
| Text.StripIdempotent | src/openrtc/utils/validation.py:102 | stripping whitespace twice is stripping it once |
| Text.StripExactly | src/openrtc/utils/validation.py:102 | stripping takes the whitespace from both ends, all of it and nothing else |
| Text.StartsWithExactly | src/openrtc/routing/room_prefix_routing.py:19-26 | a name starts with a prefix exactly if it is the prefix with something, or nothing, after it |
| Text.SpacesExactly | src/openrtc/utils/validation.py:102 | the code points that count as whitespace |

## Left out

- TenantCapLaws.TenantCapHoldsExactly: asks that no other layer, such as an agent's cap, stands against the dispatches it is about, since that layer may refuse a padded dispatch for its own reasons; `SoftCapLaws.SoftCapBound` has no such restriction.
- BreakerKeyLaws.RatioGovernsExactly: asks the same of its dispatch, for the run in which that dispatch opens the breaker; that a padded dispatch is never rejected, and an unpadded one exactly while the breaker is open, needs no such condition (`BreakerLaws.PaddedTenantEvades`, `BreakerLaws.CircuitRefusesExactly`).
- BreakerKeyLaws.CircuitGovernsExactly: asks that too, and a cooldown that lasts.
- LiveKit itself, rooms, audio, the event loop and the HTTP session: their calls are the outcomes an event carries.
- The end hook is assumed to run its synchronous prefix once called; a session-end timeout so small that it never starts is not modelled.
- Teardown is one await: closing the primary session and the shutdown callbacks are not told apart.
- A second launch on one executor: the pool builds a new executor for each job.
- Executor ids are fresh; that random identifiers never collide is assumed.
- Event listeners, state-change callbacks and observers that raise: each is isolated or logged by the source.
- A drain joins the executors it saw when it looked; the tasks `gather` makes for this are not modelled.
- The agents of a worker, and of a reload run, are fixed: `add` and `remove` between events are not modelled.
- A custom router is modelled in `Routing` and in the agreement theorem; the whole-worker runs have none.
- Process mode: its counter of live jobs by agent is modelled, the one by tenant and the subprocesses are not.
- Floating point: clocks, ratios and the smoothed lag are reals, and the wall clock in the breaker's runs never goes back.
- A negative breaker window, for which the source divides by zero, is excluded by a type.
- The metrics store's lock: each of its methods is one step. A pickle with an entry of a wrong type, which raises, cannot be written in the model.
- Strings hold Unicode scalar values; lone surrogates in membership fields are not modelled.
- The strength of HMAC and constant-time comparison: the MAC is any function, collision-free where stated.
- JSON parsing of dispatch metadata is any total function, the same for admission and routing.
- Reload: agent factories, hand-offs between agents inside a session, and a new class whose constructor exits the process; the digest in a module's name is replaced by the path it stands for.
- Reload: a session's current agent and its conversation are values; what LiveKit does with the turn in flight is not modelled.
- File watching: links that change while a change is on its way (`resolve` is one idempotent function), discovering and refreshing the watched paths, the watch loop's restarts, and a batch that arrives while `stop` awaits its tasks.
- Memory watermarks, introspection, the sidecar, audit records, tenant provider configuration and the dashboards: easy members beside the ones above.
