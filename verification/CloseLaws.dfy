/**
What closing a pool leaves behind (src/openrtc/runtime/coroutine_runtime.py, lines 187 to 200 and 631 to 668): it
stops the pool, closes the executors it finds, and each close writes FAILED over a status still RUNNING.
*/
module CloseLaws {
  import opened Wrappers
  import opened Routing
  import opened RequestFilter
  import opened SessionRun
  import opened SessionLaws
  import opened CoroutinePool
  import opened Worker
  import opened WorkerLaws

  /** A task that is over without a status written, and no close to write one. */
  predicate LeftRunning(j: Job) {
    j.phase.Done? && !j.closing && j.status == RUNNING
  }

  /** A status is written, or a close under way will see to it. */
  predicate SeenTo(j: Job) {
    j.closing || j.status != RUNNING
  }

  lemma {:induction false} CloseBegins(j: Job)
    ensures if LeftRunning(j) then Step(j, AcloseStart) == j else SeenTo(Step(j, AcloseStart))
  {
  }

  lemma {:induction false} StepKeepsSeenTo(j: Job, e: TaskEvent)
    requires SeenTo(j) && Enabled(j, e)
    ensures SeenTo(Step(j, e))
  {
    hide EntrypointEnded, BodyResumed, EnterFinally, Enabled;
    StatusStepOnce(j, e);
    if j.status == RUNNING {
      StepKeepsClosing(j, e);
    }
  }

  lemma {:induction false} StepKeepsClosing(j: Job, e: TaskEvent)
    requires Enabled(j, e) && j.closing
    ensures Step(j, e).closing || (e.AcloseEnd? && Step(j, e).status != RUNNING)
  {
    hide EntrypointEnded, BodyResumed, EnterFinally;
    if e.FirstStep? {
      EntrypointKeepsClosing(j, e.build);
    } else if e.Resume? {
      ResumedKeepsClosing(j.(cancelRequested := false), e.how);
    }
  }

  lemma {:induction false} EntrypointKeepsClosing(j: Job, how: Ending)
    ensures EntrypointEnded(j, how).closing == j.closing && EnterFinally(j, how).closing == j.closing
  {
    hide EnterFinally;
    FinallyKeepsClosing(j, how);
    FinallyKeepsClosing(Settle(j, FAILED), Cancelled);
    FinallyKeepsClosing(Settle(j, FAILED), Returned);
    FinallyKeepsClosing(Settle(j, SUCCESS), Returned);
  }

  lemma {:induction false} FinallyKeepsClosing(j: Job, how: Ending)
    ensures EnterFinally(j, how).closing == j.closing
  {
  }

  lemma {:induction false} ResumedKeepsClosing(j: Job, how: Ending)
    ensures Resumed(j, how).closing == j.closing
  {
    hide EntrypointEnded, EnterFinally;
    match j.phase {
      case Body(stage) =>
        var seen := if how.Raised? then j.(signals := j.signals + [SignalFailed(how.error)]) else j;
        EntrypointKeepsClosing(seen.(pending := Some(how)), how);
      case InlineEnd(ends) => EntrypointKeepsClosing(j, if how.Cancelled? then Cancelled else ends);
      case HeldOpen => EntrypointKeepsClosing(Settle(j, FAILED), Cancelled);
      case TearingDown =>
        EntrypointKeepsClosing(Settle(j, SUCCESS), Returned);
        EntrypointKeepsClosing(j, Cancelled);
      case _ =>
    }
  }

  lemma {:induction false} StepKeepsLeftRunning(j: Job, e: TaskEvent)
    requires LeftRunning(j) && Enabled(j, e)
    ensures LeftRunning(Step(j, e))
  {
  }

  // ---------------------------------------------------------------------------------------------
  // One executor
  // ---------------------------------------------------------------------------------------------

  predicate HasTask(s: State, id: nat) {
    id in s.jobs && s.jobs[id].Running?
  }

  lemma {:induction false} TurnOfJob(w: World, s: State, e: Event, id: nat)
    requires HasTask(s, id)
    ensures HasTask(Turn(w, s, e), id)
    ensures Turn(w, s, e).jobs[id].job
            == if e.Task? && e.id == id && Happens(w, s, e) then Step(s.jobs[id].job, e.event) else s.jobs[id].job
  {
    hide Step, CallOf, Feed, Judge, Launch, Retire, Verdict, Enabled, Buildable, PreConnect, PlanOf, AllDone;
  }

  /** From the start of its close on, a job keeps what the close found or saw to. */
  lemma {:induction false} ClosedJob(w: World, events: seq<Event>, k: nat, n: nat, id: nat)
    requires k < n <= |events| && events[k] == Task(id, AcloseStart) && HasTask(After(w, events, k), id)
    ensures HasTask(After(w, events, n), id)
    ensures var found, now := After(w, events, k).jobs[id].job, After(w, events, n).jobs[id].job;
            if LeftRunning(found) then LeftRunning(now) else SeenTo(now)
    decreases n
  {
    hide Turn, Step, LeftRunning, SeenTo, Enabled;
    if n == k + 1 {
      CloseIsPossible(w, After(w, events, k), id);
      CloseBegins(After(w, events, k).jobs[id].job);
      TurnOfJob(w, After(w, events, k), events[k], id);
    } else {
      ClosedJob(w, events, k, n - 1, id);
      var s, e := After(w, events, n - 1), events[n - 1];
      TurnOfJob(w, s, e, id);
      if e.Task? && e.id == id && Happens(w, s, e) {
        if LeftRunning(s.jobs[id].job) {
          StepKeepsLeftRunning(s.jobs[id].job, e.event);
        }
        if SeenTo(s.jobs[id].job) {
          StepKeepsSeenTo(s.jobs[id].job, e.event);
        }
      }
    }
  }

  lemma {:induction false} CloseIsPossible(w: World, s: State, id: nat)
    requires HasTask(s, id)
    ensures Happens(w, s, Task(id, AcloseStart))
  {
  }

  /** A close can return exactly once the task it cancelled is over, and then it is over itself and a status is written. */
  lemma {:induction false} CloseReturns(w: World, s: State, id: nat)
    requires HasTask(s, id) && s.jobs[id].job.closing
    ensures Happens(w, s, Task(id, AcloseEnd)) <==> s.jobs[id].job.phase.Done?
    ensures s.jobs[id].job.phase.Done? ==>
              var now := Turn(w, s, Task(id, AcloseEnd)).jobs[id].job;
              !now.closing && now.phase.Done? && now.status == if s.jobs[id].job.status == RUNNING then FAILED
                                                               else s.jobs[id].job.status
  {
    hide Feed, Judge;
    TurnOfJob(w, s, Task(id, AcloseEnd), id);
  }

  /**
  Once the close of an executor has returned, its status is RUNNING exactly if the close found its task over
  already with nothing written, as when the setup of the job raised.
  */
  lemma {:induction false} CloseDecidesExactly(w: World, events: seq<Event>, k: nat, n: nat, id: nat)
    requires k < n <= |events| && events[k] == Task(id, AcloseStart) && HasTask(After(w, events, k), id)
    ensures HasTask(After(w, events, n), id)
    ensures var found, now := After(w, events, k).jobs[id].job, After(w, events, n).jobs[id].job;
            now.phase.Done? && !now.closing ==> (now.status == RUNNING <==> LeftRunning(found))
  {
    ClosedJob(w, events, k, n, id);
  }

  // ---------------------------------------------------------------------------------------------
  // The whole pool
  // ---------------------------------------------------------------------------------------------

  lemma {:induction false} StoppedTakesNobody(w: World, s: State, e: Event)
    requires !s.pool.started && !e.StartPool?
    ensures !Turn(w, s, e).pool.started
    ensures forall id :: Tracked(Turn(w, s, e).jobs, id) ==> Tracked(s.jobs, id)
  {
    hide Step, CallOf, Feed, Judge, Retire, Verdict, Enabled, Buildable, PreConnect, PlanOf, AllDone;
    if Happens(w, s, e) && e.DoneCallback? {
      RetireEffect(w.supervisor, s.pool, e.id, s.jobs[e.id].job.status);
    }
  }

  lemma {:induction false} OnlyFoundOnes(w: World, events: seq<Event>, m: nat, n: nat)
    requires m < n <= |events| && events[m].StopPool? && forall i :: m < i < n ==> !events[i].StartPool?
    ensures !After(w, events, n).pool.started
    ensures forall id :: Tracked(After(w, events, n).jobs, id) ==> Tracked(After(w, events, m).jobs, id)
    decreases n
  {
    hide Turn;
    if n == m + 1 {
      StopStops(w, After(w, events, m));
    } else {
      OnlyFoundOnes(w, events, m, n - 1);
      StoppedTakesNobody(w, After(w, events, n - 1), events[n - 1]);
    }
  }

  lemma {:induction false} StopStops(w: World, s: State)
    ensures Turn(w, s, StopPool) == s.(pool := s.pool.(started := false))
  {
  }

  /** The close of this executor has returned and its done callback has run. */
  ghost predicate ClosedAndGone(w: World, events: seq<Event>, m: nat, n: nat, id: nat)
    requires m < n <= |events|
  {
    && (exists k :: m < k < n && events[k] == Task(id, AcloseStart))
    && id in After(w, events, n).jobs
    && var e := After(w, events, n).jobs[id];
       e.Running? && e.retired && e.job.phase.Done? && !e.job.closing
  }

  /**
  A close that found some executors and closed them all leaves a settled pool: it is stopped, nothing is tracked,
  and each job it found is RUNNING only if its task was over already, with nothing written, when its close began.
  */
  lemma {:induction false} CloseSettles(w: World, events: seq<Event>, m: nat, n: nat)
    requires m < n <= |events| && events[m].StopPool? && forall i :: m < i < n ==> !events[i].StartPool?
    requires forall id :: id in After(w, events, m).pool.executors ==> ClosedAndGone(w, events, m, n, id)
    ensures !After(w, events, n).pool.started && After(w, events, n).pool.executors == []
    ensures forall id, k :: id in After(w, events, m).pool.executors && m < k < n && events[k] == Task(id, AcloseStart) ==>
              && HasTask(After(w, events, k), id) && HasTask(After(w, events, n), id)
              && (After(w, events, n).jobs[id].job.status == RUNNING <==> LeftRunning(After(w, events, k).jobs[id].job))
  {
    hide Turn, LeftRunning;
    OnlyFoundOnes(w, events, m, n);
    ReachablePoolOk(w, events, m);
    ReachablePoolOk(w, events, n);
    SomebodyTracked(After(w, events, n));
    forall id ensures !Tracked(After(w, events, n).jobs, id) {
      if id in After(w, events, m).pool.executors {
        assert ClosedAndGone(w, events, m, n, id);
      }
    }
    forall id, k | id in After(w, events, m).pool.executors && m < k < n && events[k] == Task(id, AcloseStart)
      ensures && HasTask(After(w, events, k), id) && HasTask(After(w, events, n), id)
              && (After(w, events, n).jobs[id].job.status == RUNNING <==> LeftRunning(After(w, events, k).jobs[id].job))
    {
      assert ClosedAndGone(w, events, m, n, id);
      assert Tracked(After(w, events, m).jobs, id);
      StaysLaunched(w, events, m, k, id);
      CloseDecidesExactly(w, events, k, n, id);
    }
  }

  lemma {:induction false} SomebodyTracked(s: State)
    requires PoolOk(s)
    ensures s.pool.executors != [] ==> exists id :: Tracked(s.jobs, id)
  {
    if s.pool.executors != [] {
      assert Tracked(s.jobs, s.pool.executors[0]);
    }
  }

  lemma {:induction false} StaysLaunched(w: World, events: seq<Event>, m: nat, n: nat, id: nat)
    requires m <= n <= |events| && HasTask(After(w, events, m), id)
    ensures HasTask(After(w, events, n), id)
    decreases n
  {
    hide Turn;
    if m < n {
      StaysLaunched(w, events, m, n - 1, id);
      TurnOfJob(w, After(w, events, n - 1), events[n - 1], id);
    }
  }
}
