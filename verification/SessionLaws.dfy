/**
What every run of one call keeps, whatever order its awaits return, raise, or are cancelled in, and
whenever it is killed, closed, or told to shut down.
*/
module SessionLaws {
  import opened Wrappers
  import opened SessionRun

  /** An event that cannot happen where the call stands changes nothing. */
  function Advance(j: Job, e: TaskEvent): Job {
    if Enabled(j, e) then Step(j, e) else j
  }

  /** The call after the first `n` of some events; any sequence of events is a run. */
  function RunTo(plan: Plan, events: seq<TaskEvent>, n: nat): Job
    requires n <= |events|
    decreases n
  {
    if n == 0 then Launched(plan) else Advance(RunTo(plan, events, n - 1), events[n - 1])
  }

  // ---------------------------------------------------------------------------------------------
  // The end of a session is reported exactly once
  // ---------------------------------------------------------------------------------------------

  function Starts(signals: seq<Signal>): nat
    decreases |signals|
  {
    if signals == [] then 0
    else Starts(signals[..|signals| - 1]) + if signals[|signals| - 1].SignalStarted? then 1 else 0
  }

  function Ends(signals: seq<Signal>): nat
    decreases |signals|
  {
    if signals == [] then 0
    else Ends(signals[..|signals| - 1]) + if signals[|signals| - 1].SignalFinished? then 1 else 0
  }

  function Failures(signals: seq<Signal>): nat
    decreases |signals|
  {
    if signals == [] then 0
    else Failures(signals[..|signals| - 1]) + if signals[|signals| - 1].SignalFailed? then 1 else 0
  }

  /** What a session that ended as `how` has reported before its end. */
  function Unreported(how: Ending): seq<Signal> {
    if how.Raised? then [SignalStarted, SignalFailed(how.error)] else [SignalStarted]
  }

  function Reported(how: Ending): seq<Signal> {
    Unreported(how) + [SignalFinished(how)]
  }

  ghost predicate Over(signals: seq<Signal>) {
    signals == [] || (signals[|signals| - 1].SignalFinished? && signals == Reported(signals[|signals| - 1].how))
  }

  /** The configurations in which an end could be deferred with nobody to fire it. */
  predicate MayLoseEnd(plan: Plan) {
    !plan.endHook && plan.deferrable && !plan.fake
  }

  /** What the phase says about the reports made so far. */
  ghost predicate Sound(j: Job) {
    match j.phase
    case Scheduled => j.signals == [] && j.pending.None?
    case Body(_) => j.signals == [SignalStarted] && j.pending.None?
    case InlineEnd(how) => j.signals == Reported(how) && j.pending.None?
    case HeldOpen => Holds(j) && HeldReports(j)
    case TearingDown => Holds(j) && HeldReports(j) && j.shutdown
    case EndHook(_) => j.plan.endHook && j.pending.None? && Over(j.signals)
    case Done(_) =>
      if j.pending.None? then Over(j.signals) else MayLoseEnd(j.plan) && j.signals == Unreported(j.pending.value)
  }

  ghost predicate HeldReports(j: Job) {
    if j.pending.None? then j.signals == Reported(Returned)
    else j.pending == Some(Returned) && j.plan.deferrable && j.signals == Unreported(Returned)
  }

  lemma {:induction false} ReportedOver(how: Ending)
    ensures Over(Reported(how)) && Over([])
    ensures Reported(how) == Unreported(how) + [SignalFinished(how)]
  {
  }

  lemma {:induction false} EnterFinallySound(j: Job, how: Ending)
    requires if j.pending.None? then Over(j.signals)
             else j.plan.deferrable && !j.plan.fake && j.signals == Unreported(j.pending.value)
    ensures Sound(EnterFinally(j, how)) && EnterFinally(j, how).plan == j.plan
  {
    if j.pending.Some? {
      ReportedOver(j.pending.value);
    }
  }

  lemma {:induction false} EntrypointEndedSound(j: Job, how: Ending)
    requires if j.pending.None? then j.signals == Reported(how) || (j.signals == [] && how.Raised?)
                                     || (how.Cancelled? && Over(j.signals))
             else j.pending == Some(how) && j.plan.deferrable && Holds(j) && j.signals == Unreported(how)
    ensures Sound(EntrypointEnded(j, how)) && EntrypointEnded(j, how).plan == j.plan
  {
    hide EnterFinally, Unreported;
    ReportedOver(how);
    if !how.Returned? {
      EnterFinallySound(Settle(j, FAILED), if how.Cancelled? then Cancelled else Returned);
    } else if !Holds(j) {
      EnterFinallySound(Settle(j, SUCCESS), Returned);
    }
  }

  lemma {:induction false} BodyResumedSound(j: Job, stage: Stage, how: Ending)
    requires j.signals == [SignalStarted] && j.pending.None?
    ensures Sound(BodyResumed(j, stage, how)) && BodyResumed(j, stage, how).plan == j.plan
  {
    hide EntrypointEnded;
    var seen := if how.Raised? then j.(signals := j.signals + [SignalFailed(how.error)]) else j;
    assert seen.signals == Unreported(how);
    if j.plan.deferrable && Holds(j) {
      EntrypointEndedSound(seen.(pending := Some(how)), how);
    }
  }

  lemma {:induction false} ResumeSound(j: Job, how: Ending)
    requires Sound(j) && Enabled(j, Resume(how))
    ensures Sound(Step(j, Resume(how))) && Step(j, Resume(how)).plan == j.plan
  {
    hide EntrypointEnded, BodyResumed, EnterFinally, Unreported, HeldReports;
    var k := j.(cancelRequested := false);
    match j.phase {
      case Body(stage) => BodyResumedSound(k, stage, how);
      case InlineEnd(ends) =>
        ReportedOver(ends);
        EntrypointEndedSound(k, if how.Cancelled? then Cancelled else ends);
      case HeldOpen =>
        HeldGoesOn(j, k);
        HeldSound(k, Settle(k, FAILED), Cancelled);
      case TearingDown =>
        HeldGoesOn(j, k);
        HeldSound(k, k, Cancelled);
        HeldSound(k, Settle(k, SUCCESS), Returned);
      case _ =>
    }
  }

  lemma {:induction false} HeldGoesOn(j: Job, k: Job)
    requires HeldReports(j) && k == j.(cancelRequested := k.cancelRequested)
    ensures HeldReports(k) && HeldReports(k.(phase := TearingDown))
  {
  }

  lemma {:induction false} HeldSound(j: Job, k: Job, how: Ending)
    requires Holds(j) && HeldReports(j) && k == j.(status := k.status)
    ensures Sound(EnterFinally(k, how)) && EnterFinally(k, how).plan == j.plan
  {
    hide EnterFinally, Sound, Unreported;
    ReportedOver(Returned);
    EnterFinallySound(k, how);
  }

  lemma {:induction false} StepSound(j: Job, e: TaskEvent)
    requires Sound(j)
    ensures Sound(Advance(j, e)) && Advance(j, e).plan == j.plan
  {
    hide EntrypointEnded, BodyResumed;
    if Enabled(j, e) {
      if e.Resume? {
        ResumeSound(j, e.how);
      } else if e.FirstStep? && e.build.Raised? {
        EntrypointEndedSound(j, e.build);
      }
    }
  }

  lemma {:induction false} RunSound(plan: Plan, events: seq<TaskEvent>, n: nat)
    requires n <= |events|
    ensures Sound(RunTo(plan, events, n)) && RunTo(plan, events, n).plan == plan
    decreases n
  {
    hide Sound, Advance;
    if n == 0 {
      LaunchedSound(plan);
    } else {
      RunSound(plan, events, n - 1);
      StepSound(RunTo(plan, events, n - 1), events[n - 1]);
    }
  }

  lemma {:induction false} LaunchedSound(plan: Plan)
    ensures Sound(Launched(plan)) && Launched(plan).plan == plan
  {
  }

  lemma {:induction false} CountsOfReports(how: Ending)
    ensures Starts(Unreported(how)) == Starts(Reported(how)) == 1
    ensures Ends(Unreported(how)) == 0 && Ends(Reported(how)) == 1
    ensures Failures(Unreported(how)) == Failures(Reported(how)) == if how.Raised? then 1 else 0
  {
    assert Reported(how)[..|Unreported(how)|] == Unreported(how);
    if how.Raised? {
      assert Unreported(how)[..1] == [SignalStarted];
    }
    assert [SignalStarted][..0] == [];
  }

  /**
  Exactly once: at every point at most one start and at most one end, an end only after a start, and
  nothing after the end. When the task is done a started session has its end, unless this is one of the
  configurations that may lose it and the end is still stored on the context.
  */
  lemma {:induction false} EndReportedOnce(plan: Plan, events: seq<TaskEvent>, n: nat)
    requires n <= |events|
    ensures var j := RunTo(plan, events, n);
            && Ends(j.signals) <= Starts(j.signals) <= 1
            && Failures(j.signals) <= Starts(j.signals)
            && (Ends(j.signals) == 1 ==> j.signals[|j.signals| - 1].SignalFinished?)
            && (j.phase.Done? ==> (Ends(j.signals) == Starts(j.signals) <==> j.pending.None?))
            && (j.phase.Done? && !MayLoseEnd(plan) ==> Ends(j.signals) == Starts(j.signals))
  {
    RunSound(plan, events, n);
    var j := RunTo(plan, events, n);
    SoundCounts(j);
  }

  lemma {:induction false} SoundCounts(j: Job)
    requires Sound(j)
    ensures Ends(j.signals) <= Starts(j.signals) <= 1 && Failures(j.signals) <= Starts(j.signals)
    ensures Ends(j.signals) == 1 ==> j.signals != [] && j.signals[|j.signals| - 1].SignalFinished?
    ensures j.phase.Done? ==> (Ends(j.signals) == Starts(j.signals) <==> j.pending.None?)
    ensures j.pending.Some? ==> Starts(j.signals) == 1 && Ends(j.signals) == 0
    ensures j.phase.Done? && j.pending.Some? ==> MayLoseEnd(j.plan)
    ensures j.phase.Scheduled? ==> Starts(j.signals) == 0
    ensures j.phase.Body? ==> Starts(j.signals) == 1 && Ends(j.signals) == 0
    ensures (j.phase.HeldOpen? || j.phase.TearingDown?) ==>
              Starts(j.signals) == 1 && (Ends(j.signals) == 0 <==> j.pending.Some?)
  {
    CountsOfReports(Returned);
    assert Starts([]) == 0 && Ends([]) == 0 && Failures([]) == 0;
    if j.signals != [] && j.signals[|j.signals| - 1].SignalFinished? {
      CountsOfReports(j.signals[|j.signals| - 1].how);
    }
    if j.pending.Some? {
      CountsOfReports(j.pending.value);
    }
    assert Unreported(Returned) == [SignalStarted];
    assert Reported(Returned)[1] == SignalFinished(Returned);
  }

  /** A call whose session starts, becomes the primary one, and runs to the end of its entrypoint. */
  function HeldRun(plan: Plan): seq<TaskEvent> {
    [FirstStep(Returned, Returned), Resume(Returned), Resume(Returned)]
    + (if plan.readyHook then [Resume(Returned)] else [])
    + [PrimarySet, Resume(Returned), Resume(Returned)]
    + if plan.greeting then [Resume(Returned)] else []
  }

  /** The job once its entrypoint has returned and its end was deferred. */
  function HeldJob(plan: Plan): Job {
    Launched(plan).(phase := HeldOpen, primary := true, pending := Some(Returned), signals := [SignalStarted])
  }

  /** The job as it goes through the stages of its body. */
  function BodyJob(plan: Plan, stage: Stage, primary: bool): Job {
    Launched(plan).(phase := Body(stage), primary := primary, signals := [SignalStarted])
  }

  lemma {:induction false} Begins(plan: Plan)
    ensures Advance(Launched(plan), FirstStep(Returned, Returned)) == BodyJob(plan, Connect, false)
  {
    assert [] + [SignalStarted] == [SignalStarted];
  }

  lemma {:induction false} StageReturns(plan: Plan, stage: Stage, primary: bool)
    requires NextStage(plan, stage).Some?
    ensures Advance(BodyJob(plan, stage, primary), Resume(Returned)) == BodyJob(plan, NextStage(plan, stage).value, primary)
  {
  }

  lemma {:induction false} BecomesPrimary(plan: Plan, stage: Stage)
    requires Starting(stage)
    ensures Advance(BodyJob(plan, stage, false), PrimarySet) == BodyJob(plan, stage, true)
  {
  }

  lemma {:induction false} IsHeld(plan: Plan, stage: Stage)
    requires plan.deferrable && !plan.fake && NextStage(plan, stage).None?
    ensures Advance(BodyJob(plan, stage, true), Resume(Returned)) == HeldJob(plan)
  {
  }

  lemma {:induction false} RunMore(plan: Plan, events: seq<TaskEvent>, e: TaskEvent)
    ensures RunTo(plan, events + [e], |events| + 1) == Advance(RunTo(plan, events, |events|), e)
  {
    hide Advance;
    RunIgnoresLater(plan, events, [e], |events|);
  }

  lemma {:induction false} RunIgnoresLater(plan: Plan, events: seq<TaskEvent>, later: seq<TaskEvent>, n: nat)
    requires n <= |events|
    ensures RunTo(plan, events + later, n) == RunTo(plan, events, n)
    decreases n
  {
    hide Advance;
    if n > 0 {
      RunIgnoresLater(plan, events, later, n - 1);
      assert (events + later)[n - 1] == events[n - 1];
    }
  }

  lemma {:induction false} HeldRunHolds(plan: Plan)
    requires plan.deferrable && !plan.fake
    ensures RunTo(plan, HeldRun(plan), |HeldRun(plan)|) == HeldJob(plan)
  {
    hide Advance, BodyJob, HeldJob;
    var a := [FirstStep(Returned, Returned), Resume(Returned), Resume(Returned)];
    Begins(plan);
    assert a[..1] == [FirstStep(Returned, Returned)] && a[..2] == a[..1] + [Resume(Returned)] && a == a[..2] + [Resume(Returned)];
    assert RunTo(plan, a[..1], 1) == Advance(Launched(plan), a[0]);
    RunMore(plan, a[..1], Resume(Returned));
    StageReturns(plan, Connect, false);
    RunMore(plan, a[..2], Resume(Returned));
    StageReturns(plan, BuildAgent, false);
    var b := if plan.readyHook then a + [Resume(Returned)] else a;
    if plan.readyHook {
      RunMore(plan, a, Resume(Returned));
      StageReturns(plan, ReadyHook, false);
    }
    assert RunTo(plan, b, |b|) == BodyJob(plan, StartSession, false);
    RunMore(plan, b, PrimarySet);
    BecomesPrimary(plan, StartSession);
    RunMore(plan, b + [PrimarySet], Resume(Returned));
    StageReturns(plan, StartSession, true);
    var c := b + [PrimarySet] + [Resume(Returned)];
    RunMore(plan, c, Resume(Returned));
    var d := c + [Resume(Returned)];
    if plan.greeting {
      StageReturns(plan, NotifyStart, true);
      RunMore(plan, d, Resume(Returned));
      IsHeld(plan, Greet);
      assert HeldRun(plan) == d + [Resume(Returned)];
    } else {
      IsHeld(plan, NotifyStart);
      assert HeldRun(plan) == d;
    }
  }

  /** The ways a held call ends: its hold is cancelled, or its room shuts down and it is torn down. */
  function HoldEnds(cancelled: bool): seq<TaskEvent> {
    if cancelled then [Resume(Cancelled)] else [ShutdownRequested, Resume(Returned), Resume(Returned)]
  }

  lemma {:induction false} HoldCut(plan: Plan)
    ensures HeldJob(plan).phase.HeldOpen?
    ensures !plan.endHook ==>
              var j := Advance(HeldJob(plan), Resume(Cancelled));
              j.phase.Done? && j.status == FAILED && Starts(j.signals) == 1 && Ends(j.signals) == 0
  {
    CountsOfReports(Returned);
  }

  lemma {:induction false} HoldShut(plan: Plan)
    ensures !plan.endHook ==>
              var j := Advance(Advance(Advance(HeldJob(plan), ShutdownRequested), Resume(Returned)), Resume(Returned));
              j.phase.Done? && j.status == SUCCESS && Starts(j.signals) == 1 && Ends(j.signals) == 0
  {
    CountsOfReports(Returned);
  }

  /**
  Without an end hook the deferral loses the end of a real session that was held open, whether its hold is
  cancelled or it ends the way it should, with SUCCESS.
  */
  lemma {:induction false} DeferredEndLost(plan: Plan, cancelled: bool)
    requires MayLoseEnd(plan)
    ensures var events := HeldRun(plan) + HoldEnds(cancelled);
            var j := RunTo(plan, events, |events|);
            && RunTo(plan, events, |HeldRun(plan)|).phase.HeldOpen?
            && j.phase.Done? && j.status == (if cancelled then FAILED else SUCCESS)
            && Starts(j.signals) == 1 && Ends(j.signals) == 0
  {
    hide HeldRun, HeldJob, Advance, Starts, Ends;
    var held := HeldRun(plan);
    HeldRunHolds(plan);
    HoldCut(plan);
    HoldShut(plan);
    RunIgnoresLater(plan, held, HoldEnds(cancelled), |held|);
    if cancelled {
      RunMore(plan, held, Resume(Cancelled));
    } else {
      RunMore(plan, held, ShutdownRequested);
      RunMore(plan, held + [ShutdownRequested], Resume(Returned));
      RunMore(plan, held + [ShutdownRequested] + [Resume(Returned)], Resume(Returned));
      assert held + HoldEnds(false) == held + [ShutdownRequested] + [Resume(Returned)] + [Resume(Returned)];
    }
  }

  ghost predicate EveryRunReports(plan: Plan) {
    forall events, n: nat :: n <= |events| && RunTo(plan, events, n).phase.Done? ==>
      Ends(RunTo(plan, events, n).signals) == Starts(RunTo(plan, events, n).signals)
  }

  /** The configurations in which no finished session ever goes unreported, exactly. */
  lemma {:induction false} EndGuaranteedExactly(plan: Plan)
    ensures EveryRunReports(plan) <==> plan.endHook || plan.fake || !plan.deferrable
  {
    if MayLoseEnd(plan) {
      DeferredEndLost(plan, false);
      var events := HeldRun(plan) + HoldEnds(false);
      assert !(Ends(RunTo(plan, events, |events|).signals) == Starts(RunTo(plan, events, |events|).signals));
    } else {
      forall events, n: nat | n <= |events| && RunTo(plan, events, n).phase.Done?
        ensures Ends(RunTo(plan, events, n).signals) == Starts(RunTo(plan, events, n).signals)
      {
        EndReportedOnce(plan, events, n);
      }
    }
  }

  /**
  The reported length is the call's: while the room holds the call open a deferred end stays unreported,
  and teardown begins only after a shutdown was requested.
  */
  lemma {:induction false} HeldCallIsLive(plan: Plan, events: seq<TaskEvent>, n: nat)
    requires n <= |events|
    ensures var j := RunTo(plan, events, n);
            && (j.phase.HeldOpen? || j.phase.TearingDown? ==>
                  Starts(j.signals) == 1 && (Ends(j.signals) == 0 <==> j.pending == Some(Returned)))
            && (j.phase.TearingDown? ==> j.shutdown)
  {
    RunSound(plan, events, n);
    SoundCounts(RunTo(plan, events, n));
  }

  // ---------------------------------------------------------------------------------------------
  // The status is assigned once
  // ---------------------------------------------------------------------------------------------

  lemma {:induction false} StatusStepOnce(j: Job, e: TaskEvent)
    ensures j.status != RUNNING ==> Advance(j, e).status == j.status
  {
    hide EntrypointEnded, BodyResumed;
    if e.FirstStep? {
      EntrypointKeepsStatus(j, e.build);
    } else if e.Resume? && j.phase.Body? {
      BodyKeepsStatus(j.(cancelRequested := false), j.phase.stage, e.how);
    } else if e.Resume? && j.phase.InlineEnd? {
      EntrypointKeepsStatus(j.(cancelRequested := false), if e.how.Cancelled? then Cancelled else j.phase.how);
    }
  }

  lemma {:induction false} EntrypointKeepsStatus(j: Job, how: Ending)
    ensures j.status != RUNNING ==> EntrypointEnded(j, how).status == j.status
  {
  }

  lemma {:induction false} BodyKeepsStatus(j: Job, stage: Stage, how: Ending)
    ensures j.status != RUNNING ==> BodyResumed(j, stage, how).status == j.status
  {
    hide EntrypointEnded;
    var seen := if how.Raised? then j.(signals := j.signals + [SignalFailed(how.error)]) else j;
    EntrypointKeepsStatus(seen.(pending := Some(how)), how);
  }

  /** Once terminal, a status stays what it is: no kill, close, return or exception overwrites it. */
  lemma {:induction false} StatusAssignedOnce(plan: Plan, events: seq<TaskEvent>, m: nat, n: nat)
    requires m <= n <= |events| && RunTo(plan, events, m).status != RUNNING
    ensures RunTo(plan, events, n).status == RunTo(plan, events, m).status
    decreases n
  {
    hide Advance;
    if m < n {
      StatusAssignedOnce(plan, events, m, n - 1);
      StatusStepOnce(RunTo(plan, events, n - 1), events[n - 1]);
    }
  }

  /** The entrypoint of a call that is not held open returned normally, or the teardown of a held one did. */
  predicate Completes(j: Job, e: TaskEvent) {
    e == Resume(Returned) && (j.phase.TearingDown? || (j.phase == InlineEnd(Returned) && !Holds(j)))
  }

  ghost predicate KilledBefore(events: seq<TaskEvent>, n: nat)
    requires n <= |events|
  {
    exists k :: 0 <= k < n && events[k] == Kill
  }

  ghost predicate CompletedUnkilled(plan: Plan, events: seq<TaskEvent>, n: nat)
    requires n <= |events|
  {
    exists i :: 0 <= i < n && Completes(RunTo(plan, events, i), events[i]) && !KilledBefore(events, i)
  }

  /** Whether the executor has yet to write the outcome. */
  predicate Undecided(j: Job) {
    !j.phase.EndHook? && !j.phase.Done?
  }

  lemma {:induction false} EntrypointEndedStatus(j: Job, how: Ending)
    ensures var k := EntrypointEnded(j, how);
            && (Undecided(k) <==> how.Returned? && Holds(j))
            && (Undecided(k) ==> k.status == j.status)
            && (!Undecided(k) ==> (k.status == SUCCESS <==> j.status == SUCCESS || (j.status == RUNNING && how.Returned?)))
  {
  }

  lemma {:induction false} BodyStatus(j: Job, stage: Stage, how: Ending)
    requires j.status != SUCCESS
    ensures var k := BodyResumed(j, stage, how);
            k.status != SUCCESS && (Undecided(k) ==> k.status == j.status)
  {
    hide EntrypointEnded;
    var seen := if how.Raised? then j.(signals := j.signals + [SignalFailed(how.error)]) else j;
    EntrypointEndedStatus(seen.(pending := Some(how)), how);
  }

  lemma {:induction false} FinallyDecides(j: Job, how: Ending)
    ensures EnterFinally(j, how).status == j.status && !Undecided(EnterFinally(j, how))
  {
  }

  /** What an await that ends does to a status still to be written. */
  lemma {:induction false} StatusResumed(j: Job, how: Ending)
    requires Enabled(j, Resume(how)) && Undecided(j) && j.status != SUCCESS
    ensures var k := Step(j, Resume(how));
            && (Undecided(k) ==> k.status == j.status)
            && (Completes(j, Resume(how)) ==> !Undecided(k) && (k.status == SUCCESS <==> j.status == RUNNING))
            && (!Completes(j, Resume(how)) ==> k.status != SUCCESS)
  {
    hide EntrypointEnded, BodyResumed, EnterFinally;
    var k := j.(cancelRequested := false);
    match j.phase {
      case Body(stage) => BodyStatus(k, stage, how);
      case InlineEnd(ends) => EntrypointEndedStatus(k, if how.Cancelled? then Cancelled else ends);
      case HeldOpen => FinallyDecides(Settle(k, FAILED), Cancelled);
      case TearingDown =>
        FinallyDecides(Settle(k, SUCCESS), Returned);
        FinallyDecides(k, Cancelled);
      case _ =>
    }
  }

  /** Once decided, decided, and SUCCESS is not reached any more. */
  lemma {:induction false} DecidedStays(j: Job, e: TaskEvent)
    requires !Undecided(j)
    ensures !Undecided(Advance(j, e)) && (Advance(j, e).status == SUCCESS <==> j.status == SUCCESS)
  {
  }

  lemma {:induction false} StatusStep(j: Job, e: TaskEvent)
    requires Undecided(j) ==> j.status != SUCCESS
    ensures Completes(j, e) ==> Undecided(j) && !Undecided(Advance(j, e))
                                && (Advance(j, e).status == SUCCESS <==> j.status == RUNNING)
    ensures Undecided(j) && Undecided(Advance(j, e)) ==>
              Advance(j, e).status == if e.Kill? then FAILED else j.status
    ensures Undecided(j) && !Completes(j, e) ==> Advance(j, e).status != SUCCESS
    ensures !Undecided(j) ==>
              !Undecided(Advance(j, e)) && (Advance(j, e).status == SUCCESS <==> j.status == SUCCESS)
  {
    hide EntrypointEnded, BodyResumed, EnterFinally, Resumed;
    if !Undecided(j) {
      DecidedStays(j, e);
    } else if e.Resume? && Enabled(j, e) {
      StatusResumed(j, e.how);
    } else if e.FirstStep? {
      EntrypointEndedStatus(j, e.build);
    }
  }

  /** SUCCESS means: the call completed, and no kill came first. */
  lemma {:induction false} SuccessExactly(plan: Plan, events: seq<TaskEvent>, n: nat)
    requires n <= |events|
    ensures var j := RunTo(plan, events, n);
            && (j.status == SUCCESS <==> CompletedUnkilled(plan, events, n))
            && (Undecided(j) ==> j.status == if KilledBefore(events, n) then FAILED else RUNNING)
    decreases n
  {
    hide Advance, Completes, KilledBefore, CompletedUnkilled;
    if n == 0 {
      NothingYet(plan, events);
    } else {
      SuccessExactly(plan, events, n - 1);
      StatusStep(RunTo(plan, events, n - 1), events[n - 1]);
      KilledStep(events, n);
      CompletedStep(plan, events, n);
    }
  }

  lemma {:induction false} NothingYet(plan: Plan, events: seq<TaskEvent>)
    ensures !KilledBefore(events, 0) && !CompletedUnkilled(plan, events, 0)
  {
  }

  lemma {:induction false} KilledStep(events: seq<TaskEvent>, n: nat)
    requires 0 < n <= |events|
    ensures KilledBefore(events, n) <==> KilledBefore(events, n - 1) || events[n - 1] == Kill
  {
  }

  lemma {:induction false} CompletedStep(plan: Plan, events: seq<TaskEvent>, n: nat)
    requires 0 < n <= |events|
    ensures CompletedUnkilled(plan, events, n)
            <==> CompletedUnkilled(plan, events, n - 1)
                 || (Completes(RunTo(plan, events, n - 1), events[n - 1]) && !KilledBefore(events, n - 1))
  {
  }

  /** The last await of the session body returned normally. */
  predicate BodyReturns(j: Job, e: TaskEvent) {
    j.phase.Body? && NextStage(j.plan, j.phase.stage).None? && e == Resume(Returned)
  }

  ghost predicate BodyReturned(plan: Plan, events: seq<TaskEvent>, n: nat)
    requires n <= |events|
  {
    exists i :: 0 <= i < n && BodyReturns(RunTo(plan, events, i), events[i])
  }

  predicate ClaimsReturn(j: Job) {
    j.phase == InlineEnd(Returned) || j.phase.HeldOpen? || j.phase.TearingDown?
  }

  lemma {:induction false} ClaimStep(j: Job, e: TaskEvent)
    ensures ClaimsReturn(Advance(j, e)) ==> ClaimsReturn(j) || BodyReturns(j, e)
  {
    hide EntrypointEnded, BodyResumed;
    if e.FirstStep? {
      EntrypointClaims(j, e.build);
    } else if e.Resume? && j.phase.Body? {
      BodyClaims(j.(cancelRequested := false), j.phase.stage, e.how);
    } else if e.Resume? && j.phase.InlineEnd? {
      EntrypointClaims(j.(cancelRequested := false), if e.how.Cancelled? then Cancelled else j.phase.how);
    }
  }

  lemma {:induction false} EntrypointClaims(j: Job, how: Ending)
    ensures ClaimsReturn(EntrypointEnded(j, how)) ==> how.Returned?
  {
  }

  lemma {:induction false} BodyClaims(j: Job, stage: Stage, how: Ending)
    ensures ClaimsReturn(BodyResumed(j, stage, how)) ==> how.Returned? && NextStage(j.plan, stage).None?
  {
  }

  lemma {:induction false} ClaimsAreTrue(plan: Plan, events: seq<TaskEvent>, n: nat)
    requires n <= |events|
    ensures ClaimsReturn(RunTo(plan, events, n)) ==> BodyReturned(plan, events, n)
    decreases n
  {
    hide Advance, ClaimsReturn, BodyReturns;
    if n > 0 {
      ClaimsAreTrue(plan, events, n - 1);
      ClaimStep(RunTo(plan, events, n - 1), events[n - 1]);
      if BodyReturned(plan, events, n - 1) {
        var i :| 0 <= i < n - 1 && BodyReturns(RunTo(plan, events, i), events[i]);
        assert BodyReturned(plan, events, n);
      }
    } else {
      NoClaimYet(plan);
    }
  }

  lemma {:induction false} NoClaimYet(plan: Plan)
    ensures !ClaimsReturn(Launched(plan))
  {
  }

  /** A successful call ran its body to a normal return, and if it was held open its room did shut down. */
  lemma {:induction false} SuccessMeans(plan: Plan, events: seq<TaskEvent>, n: nat)
    requires n <= |events| && RunTo(plan, events, n).status == SUCCESS
    ensures BodyReturned(plan, events, n)
    ensures exists i :: 0 <= i < n && Completes(RunTo(plan, events, i), events[i])
                        && (Holds(RunTo(plan, events, i)) ==>
                              RunTo(plan, events, i).phase.TearingDown? && RunTo(plan, events, i).shutdown)
  {
    SuccessExactly(plan, events, n);
    var i :| 0 <= i < n && Completes(RunTo(plan, events, i), events[i]) && !KilledBefore(events, i);
    ClaimsAreTrue(plan, events, i);
    var k :| 0 <= k < i && BodyReturns(RunTo(plan, events, k), events[k]);
    HeldCallIsLive(plan, events, i);
  }

  // ---------------------------------------------------------------------------------------------
  // A task only moves forward
  // ---------------------------------------------------------------------------------------------

  /** How many steps of its own a task has left at most. */
  function Rank(phase: Phase): nat {
    match phase
    case Scheduled => 11
    case Body(Connect) => 10
    case Body(BuildAgent) => 9
    case Body(ReadyHook) => 8
    case Body(StartSession) => 7
    case Body(NotifyStart) => 6
    case Body(Greet) => 5
    case InlineEnd(_) => 4
    case HeldOpen => 3
    case TearingDown => 2
    case EndHook(_) => 1
    case Done(_) => 0
  }

  /** A step the task takes by itself: nobody is needed to cancel it first. */
  predicate OwnStep(j: Job, e: TaskEvent) {
    Enabled(j, e) && (e.FirstStep? || (e.Resume? && (e.how.Cancelled? ==> j.cancelRequested)))
  }

  ghost predicate CanProceed(j: Job) {
    exists e :: OwnStep(j, e)
  }

  /** Every step of the task itself lowers its rank; nothing from outside moves it; done stays done. */
  lemma {:induction false} TaskMovesForward(j: Job, e: TaskEvent)
    ensures Enabled(j, e) && (e.FirstStep? || e.Resume?) ==> Rank(Step(j, e).phase) < Rank(j.phase)
    ensures !e.FirstStep? && !e.Resume? ==> Advance(j, e).phase == j.phase
    ensures j.phase.Done? ==> Advance(j, e).phase == j.phase
  {
    hide EntrypointEnded, BodyResumed;
    if e.FirstStep? {
      EntrypointRank(j, e.build);
    } else if e.Resume? && j.phase.Body? {
      BodyRank(j.(cancelRequested := false), j.phase.stage, e.how);
    } else if e.Resume? && j.phase.InlineEnd? {
      EntrypointRank(j.(cancelRequested := false), if e.how.Cancelled? then Cancelled else j.phase.how);
    }
  }

  lemma {:induction false} EntrypointRank(j: Job, how: Ending)
    ensures Rank(EntrypointEnded(j, how).phase) <= 3
  {
  }

  lemma {:induction false} BodyRank(j: Job, stage: Stage, how: Ending)
    ensures Rank(BodyResumed(j, stage, how).phase) < Rank(Body(stage))
  {
    hide EntrypointEnded;
    var seen := if how.Raised? then j.(signals := j.signals + [SignalFailed(how.error)]) else j;
    EntrypointRank(seen.(pending := Some(how)), how);
  }

  /** A task waits for somebody else exactly while it is held open, unasked to shut down and uncancelled. */
  lemma {:induction false} WaitsExactly(j: Job)
    ensures CanProceed(j) <==> !j.phase.Done? && (j.phase.HeldOpen? ==> j.shutdown || j.cancelRequested)
  {
    if !j.phase.Done? && (j.phase.HeldOpen? ==> j.shutdown || j.cancelRequested) {
      assert j.cancelRequested ==> OwnStep(j, Resume(Cancelled));
      assert !j.cancelRequested && j.phase.Scheduled? ==> OwnStep(j, FirstStep(Returned, Returned));
      assert !j.cancelRequested && !j.phase.Scheduled? ==> OwnStep(j, Resume(Returned));
    }
  }

  /** Some steps of its own, one after the other, take the task from here to its end. */
  ghost predicate EndsBy(j: Job, events: seq<TaskEvent>)
    decreases |events|
  {
    if events == [] then j.phase.Done? else OwnStep(j, events[0]) && EndsBy(Step(j, events[0]), events[1..])
  }

  ghost predicate CanFinish(j: Job) {
    exists events :: EndsBy(j, events)
  }

  /** Held open, or sure to be, with nobody having asked the room to shut down or the task to stop. */
  predicate HeldUp(j: Job) {
    !j.shutdown && !j.cancelRequested && (j.phase.HeldOpen? || (j.phase == InlineEnd(Returned) && Holds(j)))
  }

  lemma {:induction false} HeldUpNeverEnds(j: Job, events: seq<TaskEvent>)
    requires HeldUp(j)
    ensures !EndsBy(j, events)
    decreases |events|
  {
  }

  /** A step towards the end: the calls of the session fail, and those after it return. */
  function WayOut(j: Job): TaskEvent {
    if j.cancelRequested then Resume(Cancelled)
    else if j.phase.Scheduled? then FirstStep(Raised(""), Returned)
    else if j.phase.Body? then Resume(Raised(""))
    else Resume(Returned)
  }

  lemma {:induction false} WayOutGoesOn(j: Job)
    requires !HeldUp(j) && !j.phase.Done?
    ensures OwnStep(j, WayOut(j)) && !HeldUp(Step(j, WayOut(j)))
  {
  }

  lemma {:induction false} FreeTaskEnds(j: Job) returns (events: seq<TaskEvent>)
    requires !HeldUp(j)
    ensures EndsBy(j, events)
    decreases Rank(j.phase)
  {
    hide HeldUp, OwnStep, Step, WayOut, Rank;
    events := [];
    if !j.phase.Done? {
      WayOutGoesOn(j);
      OwnStepLowers(j, WayOut(j));
      var rest := FreeTaskEnds(Step(j, WayOut(j)));
      events := [WayOut(j)] + rest;
    }
  }

  lemma {:induction false} OwnStepLowers(j: Job, e: TaskEvent)
    requires OwnStep(j, e)
    ensures Enabled(j, e) && Rank(Step(j, e).phase) < Rank(j.phase)
  {
    hide Step, Rank;
    TaskMovesForward(j, e);
  }

  /** A task can come to its end without a cancellation or a shutdown request exactly if it is not held up. */
  lemma {:induction false} FinishesExactly(j: Job)
    ensures CanFinish(j) <==> !HeldUp(j)
  {
    hide HeldUp, EndsBy;
    if HeldUp(j) {
      forall events ensures !EndsBy(j, events) {
        HeldUpNeverEnds(j, events);
      }
    } else {
      var events := FreeTaskEnds(j);
    }
  }

  // ---------------------------------------------------------------------------------------------
  // What a cancellation is good for
  // ---------------------------------------------------------------------------------------------

  predicate Cancels(e: TaskEvent) {
    e.Kill? || e.AcloseStart?
  }

  /** A job killed or closed before its first step never starts: nothing of its session is ever reported. */
  lemma {:induction false} CancelledUnstarted(plan: Plan, events: seq<TaskEvent>, m: nat, n: nat)
    requires m < n <= |events| && RunTo(plan, events, m).phase.Scheduled? && Cancels(events[m])
    ensures var j := RunTo(plan, events, n);
            && j.signals == [] && j.status != SUCCESS
            && ((j.phase.Scheduled? && j.cancelRequested) || j.phase == Done(Cancelled))
    decreases n
  {
    hide Sound, Advance;
    var before, e := RunTo(plan, events, n - 1), events[n - 1];
    if n == m + 1 {
      RunSound(plan, events, m);
      ScheduledIsSilent(before);
      SuccessExactly(plan, events, m);
    } else {
      CancelledUnstarted(plan, events, m, n - 1);
    }
    StoppedUnstarted(before, e);
  }

  lemma {:induction false} StoppedUnstarted(j: Job, e: TaskEvent)
    requires j.signals == [] && j.status != SUCCESS
    requires (j.phase.Scheduled? && (j.cancelRequested || Cancels(e))) || j.phase == Done(Cancelled)
    ensures var k := Advance(j, e);
            && k.signals == [] && k.status != SUCCESS
            && ((k.phase.Scheduled? && k.cancelRequested) || k.phase == Done(Cancelled))
  {
    hide EntrypointEnded, BodyResumed;
  }

  lemma {:induction false} ScheduledIsSilent(j: Job)
    requires Sound(j) && j.phase.Scheduled?
    ensures j.signals == []
  {
  }

  /** A call killed or closed while it is held open is never torn down and never succeeds. */
  lemma {:induction false} CancelledHold(plan: Plan, events: seq<TaskEvent>, m: nat, n: nat)
    requires m < n <= |events| && RunTo(plan, events, m).phase.HeldOpen? && Cancels(events[m])
    ensures var j := RunTo(plan, events, n);
            && j.status != SUCCESS
            && ((j.phase.HeldOpen? && j.cancelRequested) || j.phase.EndHook? || j.phase.Done?)
    decreases n
  {
    hide Advance;
    if n == m + 1 {
      SuccessExactly(plan, events, m);
    } else {
      CancelledHold(plan, events, m, n - 1);
    }
    StoppedHold(RunTo(plan, events, n - 1), events[n - 1]);
  }

  lemma {:induction false} StoppedHold(j: Job, e: TaskEvent)
    requires j.status != SUCCESS
    requires (j.phase.HeldOpen? && (j.cancelRequested || Cancels(e))) || j.phase.EndHook? || j.phase.Done?
    ensures var k := Advance(j, e);
            k.status != SUCCESS && ((k.phase.HeldOpen? && k.cancelRequested) || k.phase.EndHook? || k.phase.Done?)
  {
    hide EntrypointEnded, BodyResumed, EnterFinally;
    FinallyDecides(Settle(j.(cancelRequested := false), FAILED), Cancelled);
  }
}
