/**
One call, from the task that runs it to the report of its end: `CoroutineJobExecutor`
(src/openrtc/runtime/coroutine_runtime.py) together with `run_session` and `run_session_end`
(src/openrtc/core/wiring.py), which share the deferred end of a session held open past its greeting.

A step runs from one `await` to the next. What a foreign call does is the event's business: it returns,
raises or is cancelled, whether or not anybody asked for a cancellation. A cancellation that was asked for
is delivered to a task that has not begun and to one held open; a call inside the session may swallow it.
*/
module SessionRun {
  import opened Wrappers
  import opened Metrics
  import opened CircuitBreaker

  /** Livekit's status of a job. */
  datatype JobStatus = RUNNING | SUCCESS | FAILED

  /** How a call or an `await` ended. */
  datatype Ending = Returned | Raised(error: string) | Cancelled

  /** The awaits of `run_session` between the start of its `try` and its end. */
  datatype Stage = Connect | BuildAgent | ReadyHook | StartSession | NotifyStart | Greet

  /** Where the task is suspended. */
  datatype Phase =
    | Scheduled                // created, first step still to come
    | Body(stage: Stage)       // inside run_session
    | InlineEnd(how: Ending)   // run_session is notifying observers of the end; it ends as `how`
    | HeldOpen                 // the entrypoint returned, the room is still connected
    | TearingDown
    | EndHook(how: Ending)     // inside session_end_fnc; the task then ends as `how`
    | Done(how: Ending)

  /** What is fixed when the job is launched. */
  datatype Plan = Plan(
    agent: string,
    tenant: string,
    fake: bool,         // simulate_job: no live room to disconnect
    readyHook: bool,
    greeting: bool,
    endHook: bool,      // the executor was given a session_end_fnc
    deferrable: bool)   // the job context lets the executor set its defer flag

  /** What a session reports about itself, in order. */
  datatype Signal = SignalStarted | SignalFailed(error: string) | SignalFinished(how: Ending)

  datatype Job = Job(
    plan: Plan,
    phase: Phase,
    status: JobStatus,
    primary: bool,            // a primary AgentSession exists on the context
    shutdown: bool,           // the shutdown future is done
    pending: Option<Ending>,  // the deferred end stored on the context
    closing: bool,            // aclose awaits the task
    cancelRequested: bool,    // the task was cancelled and has not resumed since
    signals: seq<Signal>)

  function Launched(plan: Plan): Job {
    Job(plan, Scheduled, RUNNING, false, false, None, false, false, [])
  }

  datatype TaskEvent =
    | FirstStep(setup: Ending, build: Ending)
    | Resume(how: Ending)
    | PrimarySet
    | ShutdownRequested
    | Kill
    | AcloseStart
    | AcloseEnd

  // ---------------------------------------------------------------------------------------------
  // One step
  // ---------------------------------------------------------------------------------------------

  /** A status is only written over RUNNING. */
  function Settle(j: Job, status: JobStatus): Job {
    if j.status == RUNNING then j.(status := status) else j
  }

  /** Whether the executor keeps the call open after its entrypoint returned. */
  predicate Holds(j: Job) {
    j.primary && !j.plan.fake
  }

  function FireDeferredEnd(j: Job): Job {
    if j.pending.None? then j else j.(pending := None, signals := j.signals + [SignalFinished(j.pending.value)])
  }

  /** The executor's `finally`: call the end hook, if there is one. */
  function EnterFinally(j: Job, how: Ending): Job {
    if j.plan.endHook then FireDeferredEnd(j).(phase := EndHook(how)) else j.(phase := Done(how))
  }

  /** The entrypoint came back to the executor. */
  function EntrypointEnded(j: Job, how: Ending): Job {
    match how
    case Cancelled => EnterFinally(Settle(j, FAILED), Cancelled)
    case Raised(_) => EnterFinally(Settle(j, FAILED), Returned)
    case Returned => if Holds(j) then j.(phase := HeldOpen) else EnterFinally(Settle(j, SUCCESS), Returned)
  }

  /** The `finally` of `run_session`: defer the end to the executor or report it here. */
  function LeaveRunSession(j: Job, how: Ending): Job {
    if j.plan.deferrable && Holds(j) then EntrypointEnded(j.(pending := Some(how)), how)
    else j.(signals := j.signals + [SignalFinished(how)], phase := InlineEnd(how))
  }

  function NextStage(plan: Plan, stage: Stage): Option<Stage> {
    match stage
    case Connect => Some(BuildAgent)
    case BuildAgent => Some(if plan.readyHook then ReadyHook else StartSession)
    case ReadyHook => Some(StartSession)
    case StartSession => Some(NotifyStart)
    case NotifyStart => if plan.greeting then Some(Greet) else None
    case Greet => None
  }

  function BodyResumed(j: Job, stage: Stage, how: Ending): Job {
    match how
    case Returned =>
      var next := NextStage(j.plan, stage);
      if next.Some? then j.(phase := Body(next.value)) else LeaveRunSession(j, Returned)
    case Raised(error) => LeaveRunSession(j.(signals := j.signals + [SignalFailed(error)]), how)
    case Cancelled => LeaveRunSession(j, how)
  }

  /** `session.start` has been called, which makes the session the context's primary one. */
  predicate Starting(stage: Stage) {
    stage.StartSession? || stage.NotifyStart? || stage.Greet?
  }

  predicate Enabled(j: Job, e: TaskEvent) {
    match e
    case FirstStep(setup, build) =>
      j.phase.Scheduled? && !j.cancelRequested && !setup.Cancelled? && !build.Cancelled?
    case Resume(how) =>
      (match j.phase
       case Scheduled => how.Cancelled?
       case Body(_) => true
       case InlineEnd(_) => !how.Raised?
       case HeldOpen => how.Cancelled? || (how.Returned? && j.shutdown && !j.cancelRequested)
       case TearingDown => !how.Raised?
       case EndHook(_) => true
       case Done(_) => false)
    case PrimarySet => (j.phase.Body? && Starting(j.phase.stage)) || j.phase.InlineEnd?
    case ShutdownRequested => !j.phase.Scheduled?
    case Kill => true
    case AcloseStart => true
    case AcloseEnd => j.closing && j.phase.Done?
  }

  /** The await the task was suspended in ends; a cancellation asked for is delivered now, or swallowed by it. */
  function Resumed(j: Job, how: Ending): Job {
    match j.phase
    case Scheduled => j.(phase := Done(Cancelled))
    case Body(stage) => BodyResumed(j, stage, how)
    case InlineEnd(ends) => EntrypointEnded(j, if how.Cancelled? then Cancelled else ends)
    case HeldOpen => if how.Returned? then j.(phase := TearingDown) else EnterFinally(Settle(j, FAILED), Cancelled)
    case TearingDown =>
      if how.Returned? then EnterFinally(Settle(j, SUCCESS), Returned) else EnterFinally(j, Cancelled)
    case EndHook(ends) => j.(phase := Done(if how.Cancelled? then Cancelled else ends))
    case Done(_) => j
  }

  function Step(j: Job, e: TaskEvent): Job
    requires Enabled(j, e)
  {
    match e
    case FirstStep(setup, build) =>
      if setup.Raised? then j.(phase := Done(setup))
      else if build.Raised? then EntrypointEnded(j, build)
      else j.(signals := j.signals + [SignalStarted], phase := Body(Connect))
    case Resume(how) => Resumed(j.(cancelRequested := false), how)
    case PrimarySet => j.(primary := true)
    case ShutdownRequested => j.(shutdown := true)
    case Kill => if j.phase.Done? then j else Settle(j, FAILED).(cancelRequested := true)
    case AcloseStart => if j.phase.Done? then j else j.(closing := true, cancelRequested := true)
    case AcloseEnd => Settle(j, FAILED).(closing := false)
  }

  // ---------------------------------------------------------------------------------------------
  // The executor
  // ---------------------------------------------------------------------------------------------

  /** The metrics store's calls for some signals of a session. */
  function Feed(s: Metrics.State, plan: Plan, signals: seq<Signal>): Metrics.State
    decreases |signals|
  {
    if signals == [] then s
    else
      var before := Feed(s, plan, signals[..|signals| - 1]);
      match signals[|signals| - 1]
      case SignalStarted => Metrics.Record(before, Started(plan.agent, plan.tenant))
      case SignalFailed(error) => Metrics.Record(before, Failed(plan.agent, plan.tenant, error))
      case SignalFinished(_) => Metrics.Record(before, Finished(plan.agent, plan.tenant))
  }

  /** The breaker's calls for them: one outcome a finished session. */
  function Judge(c: Rule, s: CircuitBreaker.State, plan: Plan, signals: seq<Signal>, now: real): CircuitBreaker.State
    decreases |signals|
  {
    if signals == [] then s
    else
      var before := Judge(c, s, plan, signals[..|signals| - 1], now);
      var last := signals[|signals| - 1];
      if last.SignalFinished? then CircuitBreaker.Record(c, before, plan.tenant, last.how.Returned?, now) else before
  }

  lemma {:induction false} FeedOne(s: Metrics.State, plan: Plan, signals: seq<Signal>, x: Signal)
    ensures Feed(s, plan, signals + [x])
            == match x
               case SignalStarted => Metrics.Record(Feed(s, plan, signals), Started(plan.agent, plan.tenant))
               case SignalFailed(error) => Metrics.Record(Feed(s, plan, signals), Failed(plan.agent, plan.tenant, error))
               case SignalFinished(_) => Metrics.Record(Feed(s, plan, signals), Finished(plan.agent, plan.tenant))
  {
  }

  lemma {:induction false} JudgeOne(c: Rule, s: CircuitBreaker.State, plan: Plan, signals: seq<Signal>, x: Signal, now: real)
    ensures Judge(c, s, plan, signals + [x], now)
            == if x.SignalFinished? then
                 CircuitBreaker.Record(c, Judge(c, s, plan, signals, now), plan.tenant, x.how.Returned?, now)
               else Judge(c, s, plan, signals, now)
  {
  }
}
