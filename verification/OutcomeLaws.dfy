/**
How a call comes out, told by what happened to it and where it stood: which status is written
(src/openrtc/runtime/coroutine_runtime.py, lines 187 to 333), how its task ends, and what its session reports
(src/openrtc/core/wiring.py, lines 199 to 241).
*/
module OutcomeLaws {
  import opened Wrappers
  import opened SessionRun
  import opened SessionLaws
  import Metrics

  /** At some step of the run the job stood so that this event did this. */
  ghost predicate Happened(plan: Plan, events: seq<TaskEvent>, n: nat, did: (Job, TaskEvent) -> bool)
    requires n <= |events|
  {
    exists i :: 0 <= i < n && did(RunTo(plan, events, i), events[i])
  }

  lemma {:induction false} HappenedStep(plan: Plan, events: seq<TaskEvent>, n: nat, did: (Job, TaskEvent) -> bool)
    requires 0 < n <= |events|
    ensures Happened(plan, events, n, did)
            <==> Happened(plan, events, n - 1, did) || did(RunTo(plan, events, n - 1), events[n - 1])
  {
  }

  // ---------------------------------------------------------------------------------------------
  // The status
  // ---------------------------------------------------------------------------------------------

  /** The call is a real one whose session became the primary one: its room keeps it open. */
  predicate KeptOpen(j: Job) {
    j.primary && !j.plan.fake
  }

  /** What makes a call that has no status yet fail. */
  predicate Fails(j: Job, e: TaskEvent) {
    Enabled(j, e) &&
    match e
    case FirstStep(setup, build) => setup.Returned? && build.Raised?
    case Resume(how) =>
      (match j.phase
       case Body(_) => !how.Returned? && j.plan.deferrable && KeptOpen(j)
       case InlineEnd(ends) => !ends.Returned? || how.Cancelled?
       case HeldOpen => how.Cancelled?
       case _ => false)
    case Kill => !j.phase.Done?
    case AcloseEnd => true
    case _ => false
  }

  /** What makes it succeed: teardown is over, or the entrypoint of a call that is not kept open returned. */
  predicate Succeeds(j: Job, e: TaskEvent) {
    e == Resume(Returned) && (j.phase.TearingDown? || (j.phase == InlineEnd(Returned) && !KeptOpen(j)))
  }

  const FailsFirst := (j: Job, e: TaskEvent) => j.status == RUNNING && Fails(j, e)
  const SucceedsFirst := (j: Job, e: TaskEvent) => j.status == RUNNING && Succeeds(j, e)

  lemma {:induction false} StatusWritten(j: Job, e: TaskEvent)
    requires j.status == RUNNING
    ensures Advance(j, e).status == if Fails(j, e) then FAILED else if Succeeds(j, e) then SUCCESS else RUNNING
  {
    hide EnterFinally, EntrypointEnded;
    if e.FirstStep? {
      EntrypointWrites(j, e.build);
    } else if e.Resume? {
      var k := j.(cancelRequested := false);
      match j.phase {
        case Body(_) =>
          EntrypointWrites(k.(pending := Some(e.how)), e.how);
          if e.how.Raised? {
            EntrypointWrites(k.(signals := k.signals + [SignalFailed(e.how.error)], pending := Some(e.how)), e.how);
          }
        case InlineEnd(ends) => EntrypointWrites(k, if e.how.Cancelled? then Cancelled else ends);
        case HeldOpen => FinallyDecides(k.(status := FAILED), Cancelled);
        case TearingDown =>
          FinallyDecides(k.(status := SUCCESS), Returned);
          FinallyDecides(k, Cancelled);
        case _ =>
      }
    }
  }

  lemma {:induction false} EntrypointWrites(j: Job, how: Ending)
    requires j.status == RUNNING
    ensures EntrypointEnded(j, how).status
            == if !how.Returned? then FAILED else if KeptOpen(j) then RUNNING else SUCCESS
  {
    hide EnterFinally;
    FinallyDecides(j.(status := FAILED), Cancelled);
    FinallyDecides(j.(status := FAILED), Returned);
    FinallyDecides(j.(status := SUCCESS), Returned);
  }

  /** In any run: the status is FAILED, or SUCCESS, exactly if that is what first decided it. */
  lemma {:induction false} FailedExactly(plan: Plan, events: seq<TaskEvent>, n: nat)
    requires n <= |events|
    ensures RunTo(plan, events, n).status == FAILED <==> Happened(plan, events, n, FailsFirst)
    ensures RunTo(plan, events, n).status == SUCCESS <==> Happened(plan, events, n, SucceedsFirst)
    decreases n
  {
    hide Advance, Fails, Succeeds, Happened;
    if n == 0 {
      NothingHappened(plan, events, FailsFirst);
      NothingHappened(plan, events, SucceedsFirst);
    } else {
      FailedExactly(plan, events, n - 1);
      var j, e := RunTo(plan, events, n - 1), events[n - 1];
      HappenedStep(plan, events, n, FailsFirst);
      HappenedStep(plan, events, n, SucceedsFirst);
      StatusStepOnce(j, e);
      FailsOrSucceeds(j, e);
      if j.status == RUNNING {
        StatusWritten(j, e);
      }
    }
  }

  lemma {:induction false} NothingHappened(plan: Plan, events: seq<TaskEvent>, did: (Job, TaskEvent) -> bool)
    ensures !Happened(plan, events, 0, did)
  {
  }

  lemma {:induction false} FailsOrSucceeds(j: Job, e: TaskEvent)
    ensures !(Fails(j, e) && Succeeds(j, e))
  {
  }

  // ---------------------------------------------------------------------------------------------
  // Finished without a status
  // ---------------------------------------------------------------------------------------------

  /** The task goes its last way without writing a status: setup raised, or it was cancelled unstarted or in teardown. */
  predicate Abandons(j: Job, e: TaskEvent) {
    (j.phase.Scheduled? && Enabled(j, e) && ((e.FirstStep? && e.setup.Raised?) || e == Resume(Cancelled)))
    || (j.phase.TearingDown? && e == Resume(Cancelled))
  }

  /** Someone outside the task writes FAILED over a status still RUNNING. */
  predicate FailedFromOutside(j: Job, e: TaskEvent) {
    (e.Kill? && !j.phase.Done?) || (e.AcloseEnd? && j.closing && j.phase.Done?)
  }

  const AbandonedBy := (j: Job, e: TaskEvent) => Abandons(j, e)
  const FailedBy := (j: Job, e: TaskEvent) => FailedFromOutside(j, e)

  /** What a step does to a call of which no status is written yet. */
  predicate AbandonsRightly(j: Job, e: TaskEvent, k: Job) {
    && (Abandons(j, e) ==> Undecided(j) && !Undecided(k))
    && (!Undecided(j) ==> !Undecided(k))
    && (j.status == RUNNING ==>
          && (k.status == RUNNING && Undecided(j) && !Undecided(k) ==> Abandons(j, e))
          && (Abandons(j, e) || !Undecided(j) ==> (k.status == RUNNING <==> !FailedFromOutside(j, e)))
          && (FailedFromOutside(j, e) ==> k.status == FAILED)
          && (Undecided(k) && !FailedFromOutside(j, e) ==> k.status == RUNNING))
  }

  lemma {:induction false} AbandonStep(j: Job, e: TaskEvent)
    ensures AbandonsRightly(j, e, Advance(j, e))
  {
    hide Step, AbandonsRightly;
    if !Enabled(j, e) || !(e.FirstStep? || e.Resume?) {
      OthersAbandonNothing(j, e);
    } else if e.FirstStep? {
      FirstStepAbandons(j, e);
    } else {
      ResumeAbandons(j, e);
    }
  }

  lemma {:induction false} OthersAbandonNothing(j: Job, e: TaskEvent)
    requires !Enabled(j, e) || !(e.FirstStep? || e.Resume?)
    ensures AbandonsRightly(j, e, Advance(j, e))
  {
  }

  lemma {:induction false} FirstStepAbandons(j: Job, e: TaskEvent)
    requires e.FirstStep? && Enabled(j, e)
    ensures AbandonsRightly(j, e, Step(j, e))
  {
    hide EntrypointEnded;
    EntrypointLeaves(j, e.build);
  }

  lemma {:induction false} ResumeAbandons(j: Job, e: TaskEvent)
    requires e.Resume? && Enabled(j, e)
    ensures AbandonsRightly(j, e, Step(j, e))
  {
    hide EnterFinally, EntrypointEnded;
    var k := j.(cancelRequested := false);
    match j.phase {
      case Body(_) =>
        EntrypointLeaves(k.(pending := Some(e.how)), e.how);
        if e.how.Raised? {
          EntrypointLeaves(k.(signals := k.signals + [SignalFailed(e.how.error)], pending := Some(e.how)), e.how);
        }
      case InlineEnd(ends) => EntrypointLeaves(k, if e.how.Cancelled? then Cancelled else ends);
      case HeldOpen => FinallyDecides(Settle(k, FAILED), Cancelled);
      case TearingDown =>
        FinallyDecides(Settle(k, SUCCESS), Returned);
        FinallyDecides(k, Cancelled);
      case _ =>
    }
  }

  /** The entrypoint's return writes a status exactly if it ends the task. */
  lemma {:induction false} EntrypointLeaves(j: Job, how: Ending)
    ensures var k := EntrypointEnded(j, how);
            if Undecided(k) then k.status == j.status else k.status != RUNNING
  {
    hide EnterFinally;
    FinallyDecides(Settle(j, FAILED), Cancelled);
    FinallyDecides(Settle(j, FAILED), Returned);
    FinallyDecides(Settle(j, SUCCESS), Returned);
  }

  /**
  Which tasks end with a status still RUNNING: those that abandoned their call, with no kill before and no close
  that wrote over it since.
  */
  lemma {:induction false} LeftRunningExactly(plan: Plan, events: seq<TaskEvent>, n: nat)
    requires n <= |events|
    ensures var j := RunTo(plan, events, n);
            !Undecided(j) ==> (j.status == RUNNING <==> Happened(plan, events, n, AbandonedBy)
                                                        && !Happened(plan, events, n, FailedBy))
    ensures Undecided(RunTo(plan, events, n)) ==> !Happened(plan, events, n, AbandonedBy)
    ensures RunTo(plan, events, n).status == RUNNING ==> !Happened(plan, events, n, FailedBy)
    ensures Undecided(RunTo(plan, events, n)) && !Happened(plan, events, n, FailedBy) ==>
              RunTo(plan, events, n).status == RUNNING
    decreases n
  {
    hide Advance, Abandons, FailedFromOutside, Happened, Undecided;
    if n == 0 {
      NothingHappened(plan, events, AbandonedBy);
      NothingHappened(plan, events, FailedBy);
      StartsUndecided(plan);
    } else {
      LeftRunningExactly(plan, events, n - 1);
      var j, e := RunTo(plan, events, n - 1), events[n - 1];
      HappenedStep(plan, events, n, AbandonedBy);
      HappenedStep(plan, events, n, FailedBy);
      StatusStepOnce(j, e);
      AbandonStep(j, e);
    }
  }

  lemma {:induction false} StartsUndecided(plan: Plan)
    ensures Undecided(Launched(plan))
  {
  }

  // ---------------------------------------------------------------------------------------------
  // How the task itself ends
  // ---------------------------------------------------------------------------------------------

  /** A cancellation ends the task: delivered outside the body, or out of a body whose end was deferred. */
  predicate CancelsOut(j: Job, e: TaskEvent) {
    e.Resume? &&
    match j.phase
    case Scheduled => e.how.Cancelled?
    case Body(_) => e.how.Cancelled? && j.plan.deferrable && KeptOpen(j)
    case InlineEnd(ends) => e.how.Cancelled? || (ends.Cancelled? && e.how.Returned?)
    case HeldOpen => e.how.Cancelled?
    case TearingDown => e.how.Cancelled?
    case EndHook(_) => e.how.Cancelled?
    case Done(_) => false
  }

  const CancelledOut := (j: Job, e: TaskEvent) => CancelsOut(j, e)

  /** How the task has ended, or will once the end hook is through. */
  function Ended(j: Job): Option<Ending> {
    match j.phase
    case EndHook(how) => Some(how)
    case Done(how) => Some(how)
    case _ => None
  }

  lemma {:induction false} EndedStep(j: Job, e: TaskEvent)
    ensures Ended(Advance(j, e))
            == if CancelsOut(j, e) then Some(Cancelled)
               else if Ended(j).Some? then Ended(j)
               else if e.FirstStep? && Enabled(j, e) && e.setup.Raised? then Some(e.setup)
               else if Undecided(Advance(j, e)) then None
               else Some(Returned)
  {
    hide EntrypointEnded;
    if e.FirstStep? {
      EntrypointEnds(j, e.build);
    } else if e.Resume? {
      var k := j.(cancelRequested := false);
      match j.phase {
        case Body(_) =>
          EntrypointEnds(k.(pending := Some(e.how)), e.how);
          if e.how.Raised? {
            EntrypointEnds(k.(signals := k.signals + [SignalFailed(e.how.error)], pending := Some(e.how)), e.how);
          }
        case InlineEnd(ends) => EntrypointEnds(k, if e.how.Cancelled? then Cancelled else ends);
        case _ =>
      }
    }
  }

  lemma {:induction false} EntrypointEnds(j: Job, how: Ending)
    ensures Ended(EntrypointEnded(j, how))
            == if how.Cancelled? then Some(Cancelled) else if how.Returned? && KeptOpen(j) then None else Some(Returned)
  {
  }

  /**
  A finished task ends cancelled exactly if a cancellation ended it, with the error of its setup exactly if that
  raised, and normally otherwise, whatever its call did.
  */
  lemma {:induction false} TaskEndsExactly(plan: Plan, events: seq<TaskEvent>, n: nat)
    requires n <= |events|
    ensures var j := RunTo(plan, events, n);
            && (Ended(j) == Some(Cancelled) <==> Happened(plan, events, n, CancelledOut))
            && (Ended(j).Some? && Ended(j).value.Raised? <==> Happened(plan, events, n, SetupRaised))
            && (Ended(j).Some? && Ended(j).value.Raised? ==> j.phase.Done?)
    decreases n
  {
    hide Advance, CancelsOut, Happened, Undecided, Enabled;
    if n == 0 {
      NothingHappened(plan, events, CancelledOut);
      NothingHappened(plan, events, SetupRaised);
    } else {
      TaskEndsExactly(plan, events, n - 1);
      var j, e := RunTo(plan, events, n - 1), events[n - 1];
      HappenedStep(plan, events, n, CancelledOut);
      HappenedStep(plan, events, n, SetupRaised);
      EndedStep(j, e);
      NotCancelledTwice(j, e);
    }
  }

  const SetupRaised := (j: Job, e: TaskEvent) => e.FirstStep? && Enabled(j, e) && e.setup.Raised?

  lemma {:induction false} NotCancelledTwice(j: Job, e: TaskEvent)
    ensures SetupRaised(j, e) ==> Ended(j).None? && !CancelsOut(j, e)
    ensures CancelsOut(j, e) ==> !j.phase.Done?
    ensures j.phase.Done? ==> Advance(j, e).phase.Done?
    ensures e.FirstStep? && Enabled(j, e) && e.setup.Raised? ==> Advance(j, e).phase.Done?
  {
  }

  // ---------------------------------------------------------------------------------------------
  // What the session reports
  // ---------------------------------------------------------------------------------------------

  predicate Begins(j: Job, e: TaskEvent) {
    j.phase.Scheduled? && !j.cancelRequested && e == FirstStep(Returned, Returned)
  }

  /** The session's body ended like this: its last await returned, or one of them raised or was cancelled. */
  predicate LeavesBody(j: Job, e: TaskEvent, how: Ending) {
    j.phase.Body? && e == Resume(how) &&
    (how.Returned? ==> j.phase.stage == if j.plan.greeting then Greet else NotifyStart)
  }

  function BodyEnds(how: Ending): (Job, TaskEvent) -> bool {
    (j, e) => LeavesBody(j, e, how)
  }

  const Begun := (j: Job, e: TaskEvent) => Begins(j, e)

  /** The session's end is reported as this, or stored to be. */
  predicate Told(j: Job, how: Ending) {
    SignalFinished(how) in j.signals || j.pending == Some(how)
  }

  /** Nothing new is told, and at most a stored end reported. */
  ghost predicate TellsNothing(j: Job, k: Job) {
    && (forall x: Signal :: !x.SignalFinished? ==> (x in k.signals <==> x in j.signals))
    && forall how :: Told(k, how) <==> Told(j, how)
  }

  lemma {:induction false} SameReports(j: Job, k: Job, l: Job)
    requires k.signals == j.signals && k.pending == j.pending && TellsNothing(k, l)
    ensures TellsNothing(j, l)
  {
  }

  lemma {:induction false} SilentStep(j: Job, k: Job)
    ensures k.signals == j.signals && k.pending == j.pending ==> TellsNothing(j, k)
  {
  }

  lemma {:induction false} FinallyTells(j: Job, how: Ending)
    ensures TellsNothing(j, EnterFinally(j, how)) && !EnterFinally(j, how).phase.Body?
  {
  }

  lemma {:induction false} EntrypointTells(j: Job, how: Ending)
    ensures TellsNothing(j, EntrypointEnded(j, how)) && !EntrypointEnded(j, how).phase.Body?
  {
    hide EnterFinally, TellsNothing;
    match how {
      case Cancelled =>
        FinallyTells(Settle(j, FAILED), Cancelled);
        SameReports(j, Settle(j, FAILED), EntrypointEnded(j, how));
      case Raised(_) =>
        FinallyTells(Settle(j, FAILED), Returned);
        SameReports(j, Settle(j, FAILED), EntrypointEnded(j, how));
      case Returned =>
        FinallyTells(Settle(j, SUCCESS), Returned);
        SameReports(j, Settle(j, SUCCESS), EnterFinally(Settle(j, SUCCESS), Returned));
        SilentStep(j, j.(phase := HeldOpen));
    }
  }

  /** The end of the body is told, and nothing else. */
  lemma {:induction false} LeavingTells(j: Job, how: Ending)
    requires j.pending.None?
    ensures var k := LeaveRunSession(j, how);
            && (forall x: Signal :: !x.SignalFinished? ==> (x in k.signals <==> x in j.signals))
            && (forall told :: Told(k, told) <==> Told(j, told) || told == how)
            && !k.phase.Body?
  {
    hide EntrypointEnded;
    EntrypointTells(j.(pending := Some(how)), how);
  }

  /** What one resumed await adds to what was told. */
  lemma {:induction false} BodyTells(j: Job, stage: Stage, how: Ending)
    requires j.pending.None? && j.phase == Body(stage) && (stage.Greet? ==> j.plan.greeting)
    ensures var k := BodyResumed(j, stage, how);
            && (forall told :: Told(k, told) <==> Told(j, told) || LeavesBody(j, Resume(how), told))
            && (SignalStarted in k.signals <==> SignalStarted in j.signals)
            && (forall error :: SignalFailed(error) in k.signals
                                <==> SignalFailed(error) in j.signals || how == Raised(error))
            && (k.phase.Body? && k.phase.stage.Greet? ==> j.plan.greeting)
  {
    hide LeaveRunSession;
    LeavingTells(j, how);
    if how.Raised? {
      LeavingTells(j.(signals := j.signals + [SignalFailed(how.error)]), how);
    }
  }

  lemma {:induction false} NoBodyTells(j: Job, e: TaskEvent)
    requires !j.phase.Body? && !Begins(j, e)
    ensures TellsNothing(j, Advance(j, e)) && !Advance(j, e).phase.Body?
  {
    hide EntrypointEnded, TellsNothing, Resumed;
    SilentStep(j, Advance(j, e));
    if e.FirstStep? {
      EntrypointTells(j, e.build);
    } else if e.Resume? && Enabled(j, e) {
      LateResumeTells(j, e.how);
    }
  }

  lemma {:induction false} LateResumeTells(j: Job, how: Ending)
    requires !j.phase.Body? && Enabled(j, Resume(how))
    ensures TellsNothing(j, Step(j, Resume(how))) && !Step(j, Resume(how)).phase.Body?
  {
    hide EntrypointEnded, EnterFinally, TellsNothing;
    var k := j.(cancelRequested := false);
    SilentStep(j, Step(j, Resume(how)));
    match j.phase {
      case InlineEnd(ends) =>
        EntrypointTells(k, if how.Cancelled? then Cancelled else ends);
        SameReports(j, k, EntrypointEnded(k, if how.Cancelled? then Cancelled else ends));
      case HeldOpen =>
        FinallyTells(Settle(k, FAILED), Cancelled);
        SameReports(j, Settle(k, FAILED), EnterFinally(Settle(k, FAILED), Cancelled));
      case TearingDown =>
        FinallyTells(Settle(k, SUCCESS), Returned);
        FinallyTells(k, Cancelled);
        SameReports(j, Settle(k, SUCCESS), EnterFinally(Settle(k, SUCCESS), Returned));
        SameReports(j, k, EnterFinally(k, Cancelled));
      case _ =>
    }
  }

  lemma {:induction false} BeginningTells(j: Job, e: TaskEvent)
    requires Begins(j, e)
    ensures Advance(j, e) == j.(signals := j.signals + [SignalStarted], phase := Body(Connect))
  {
  }

  /** What one step adds to what was told. */
  lemma {:induction false} TellStep(j: Job, e: TaskEvent)
    requires j.phase.Body? ==> j.pending.None? && (j.phase.stage.Greet? ==> j.plan.greeting)
    ensures forall told :: Told(Advance(j, e), told) <==> Told(j, told) || LeavesBody(j, e, told)
    ensures SignalStarted in Advance(j, e).signals <==> SignalStarted in j.signals || Begins(j, e)
    ensures forall error :: SignalFailed(error) in Advance(j, e).signals
                            <==> SignalFailed(error) in j.signals || (j.phase.Body? && e == Resume(Raised(error)))
    ensures Advance(j, e).phase.Body? && Advance(j, e).phase.stage.Greet? ==> j.plan.greeting
  {
    hide EntrypointEnded, EnterFinally, BodyResumed;
    if Begins(j, e) {
      BeginningTells(j, e);
    } else if !j.phase.Body? {
      NoBodyTells(j, e);
    } else if e.Resume? {
      BodyTells(j.(cancelRequested := false), j.phase.stage, e.how);
    }
  }

  /**
  What a session reports is what happened to it: a start exactly if it was built, a failure exactly with the error
  its body raised, and an end, reported or stored, exactly as its body ended.
  */
  lemma {:induction false} ReportsExactly(plan: Plan, events: seq<TaskEvent>, n: nat, how: Ending)
    requires n <= |events|
    ensures var j := RunTo(plan, events, n);
            && (SignalStarted in j.signals <==> Happened(plan, events, n, Begun))
            && (how.Raised? ==> (SignalFailed(how.error) in j.signals <==> Happened(plan, events, n, BodyEnds(how))))
            && (Told(j, how) <==> Happened(plan, events, n, BodyEnds(how)))
            && (j.phase.Body? && j.phase.stage.Greet? ==> plan.greeting)
    decreases n
  {
    hide Advance, Happened, Told, Sound;
    if n == 0 {
      NothingHappened(plan, events, Begun);
      NothingHappened(plan, events, BodyEnds(how));
      NothingTold(plan, how);
    } else {
      ReportsExactly(plan, events, n - 1, how);
      RunSound(plan, events, n - 1);
      RunSound(plan, events, n);
      HappenedStep(plan, events, n, Begun);
      HappenedStep(plan, events, n, BodyEnds(how));
      NothingStored(RunTo(plan, events, n - 1));
      TellStep(RunTo(plan, events, n - 1), events[n - 1]);
    }
  }

  lemma {:induction false} NothingStored(j: Job)
    ensures Sound(j) && j.phase.Body? ==> j.pending.None?
  {
  }

  lemma {:induction false} NothingTold(plan: Plan, how: Ending)
    ensures !Told(Launched(plan), how) && Launched(plan).signals == [] && !Launched(plan).phase.Body?
  {
  }

  // ---------------------------------------------------------------------------------------------
  // What the store hears
  // ---------------------------------------------------------------------------------------------

  /** The row for a report of the session: its kind, the call's agent and tenant, and the error's first 500 characters. */
  predicate RowFor(row: Metrics.Row, plan: Plan, x: Signal) {
    match x
    case SignalStarted => row == Metrics.SessionStarted(plan.agent, plan.tenant)
    case SignalFailed(error) =>
      row == Metrics.SessionFailed(plan.agent, plan.tenant, if |error| <= 500 then error else error[..500])
    case SignalFinished(_) => row == Metrics.SessionFinished(plan.agent, plan.tenant)
  }

  /** Each report of a session is one more row at the end of the stream, while there is room for it. */
  lemma {:induction false} FeedTells(s: Metrics.State, plan: Plan, signals: seq<Signal>)
    requires |s.buffer.events| + |signals| <= Metrics.STREAM_EVENTS_MAXLEN
    ensures var before, after := s.buffer.events, Feed(s, plan, signals).buffer.events;
            && |after| == |before| + |signals| && after[..|before|] == before
            && forall k :: 0 <= k < |signals| ==> RowFor(after[|before| + k], plan, signals[k])
    decreases |signals|
  {
    hide Feed, RowFor;
    if signals == [] {
      FeedNothing(s, plan);
    } else {
      var init, last := signals[..|signals| - 1], signals[|signals| - 1];
      assert signals == init + [last];
      FeedTells(s, plan, init);
      FeedTellsLast(s, plan, init, last);
    }
  }

  lemma {:induction false} FeedNothing(s: Metrics.State, plan: Plan)
    ensures Feed(s, plan, []) == s
  {
  }

  lemma {:induction false} FeedTellsLast(s: Metrics.State, plan: Plan, init: seq<Signal>, x: Signal)
    requires |Feed(s, plan, init).buffer.events| < Metrics.STREAM_EVENTS_MAXLEN
    ensures var before, after := Feed(s, plan, init).buffer.events, Feed(s, plan, init + [x]).buffer.events;
            |after| == |before| + 1 && after[..|before|] == before && RowFor(after[|before|], plan, x)
  {
    hide Metrics.Count, Feed;
    FeedOne(s, plan, init, x);
  }
}
