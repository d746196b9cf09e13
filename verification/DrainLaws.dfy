/** What a drain promises: no new executors, and a return only when none is left. */
module DrainLaws {
  import opened Wrappers
  import opened Routing
  import opened RequestFilter
  import opened SessionRun
  import opened SessionLaws
  import opened CoroutinePool
  import opened Worker
  import opened WorkerLaws
  import opened GaugeLaws
  import opened Scenarios
  import opened SupervisorLaws

  /** Tasks still running plus done callbacks still to be delivered, each task counting for both. */
  function WorkLeft(s: State): nat {
    Count(s.jobs, Unfinished) + |s.pool.executors|
  }

  ghost predicate DrainOk(s: State) {
    && (s.drain.NotDraining? || s.pool.draining)
    && (s.drain.Drained? ==> s.pool.executors == [])
  }

  ghost predicate DrainsFrom(s: State, t: State) {
    && t.pool.draining
    && (forall id :: id in t.pool.executors ==> id in s.pool.executors)
    && WorkLeft(t) <= WorkLeft(s)
  }

  lemma {:induction false} TaskWork(s: State, id: nat, event: TaskEvent)
    requires id in s.jobs && s.jobs[id].Running? && Enabled(s.jobs[id].job, event)
    ensures var after := Step(s.jobs[id].job, event);
            Count(s.jobs[id := s.jobs[id].(job := after)], Unfinished) + One(!s.jobs[id].job.phase.Done? && after.phase.Done?)
            == Count(s.jobs, Unfinished)
  {
    hide Step, Enabled, Count;
    TaskMovesForward(s.jobs[id].job, event);
    CountUpdate(s.jobs, id, s.jobs[id].(job := Step(s.jobs[id].job, event)), Unfinished);
  }

  /**
  While draining: nothing is added, the work left never grows, a finished task and a delivered callback
  each lower it, and a drain that has returned stays returned.
  */
  lemma {:induction false} TurnDrains(w: World, s: State, e: Event)
    requires PoolOk(s) && DrainOk(s) && s.pool.draining
    ensures DrainsFrom(s, Turn(w, s, e)) && DrainOk(Turn(w, s, e))
    ensures e.DoneCallback? && Happens(w, s, e) ==> WorkLeft(Turn(w, s, e)) == WorkLeft(s) - 1
    ensures e.Task? && Happens(w, s, e) && !s.jobs[e.id].job.phase.Done? && Step(s.jobs[e.id].job, e.event).phase.Done? ==>
              WorkLeft(Turn(w, s, e)) == WorkLeft(s) - 1
    ensures s.drain.Drained? ==> Turn(w, s, e).drain.Drained?
  {
    hide Step, CallOf, Feed, Judge, Retire, Verdict, Enabled, Buildable, PreConnect, PlanOf, Count;
    if Happens(w, s, e) {
      match e {
        case Offer(id, ctx, _) =>
          CountUpdate(s.jobs, id, Waiting(CallOf(w, ctx)), Unfinished);
          CountUpdate(s.jobs, id, Deciding(CallOf(w, ctx)), Unfinished);
        case Answer(id, _) =>
          CountUpdate(s.jobs, id, Waiting(s.jobs[id].call), Unfinished);
          CountUpdate(s.jobs, id, Gone(s.jobs[id].call), Unfinished);
        case Withdraw(id) => CountUpdate(s.jobs, id, Gone(s.jobs[id].call), Unfinished);
        case LaunchJob(id, _, _) => CountUpdate(s.jobs, id, Gone(s.jobs[id].call), Unfinished);
        case Task(id, event) => TaskWork(s, id, event);
        case DoneCallback(id) =>
          CountUpdate(s.jobs, id, s.jobs[id].(retired := true), Unfinished);
          RetireEffect(w.supervisor, s.pool, id, s.jobs[id].job.status);
          RemoveFirstDistinct(s.pool.executors, id);
          assert Tracked(s.jobs, id);
        case _ =>
      }
    }
  }

  lemma {:induction false} TurnKeepsDrainOk(w: World, s: State, e: Event)
    requires PoolOk(s) && DrainOk(s)
    ensures DrainOk(Turn(w, s, e))
  {
  }

  lemma {:induction false} ReachableDrainOk(w: World, events: seq<Event>, n: nat)
    requires n <= |events|
    ensures DrainOk(After(w, events, n))
    decreases n
  {
    hide Turn, PoolOk;
    if n > 0 {
      ReachableDrainOk(w, events, n - 1);
      ReachablePoolOk(w, events, n - 1);
      TurnKeepsDrainOk(w, After(w, events, n - 1), events[n - 1]);
    }
  }

  /**
  The drain guarantee over whole runs: from the moment a worker drains, no later step tracks an executor
  that was not tracked then, the work left never grows, and once `drain` has returned no executor is
  tracked ever again.
  */
  lemma {:induction false} DrainGuarantee(w: World, events: seq<Event>, m: nat, n: nat)
    requires m <= n <= |events| && After(w, events, m).pool.draining
    ensures DrainsFrom(After(w, events, m), After(w, events, n))
    ensures After(w, events, m).drain.Drained? ==>
              After(w, events, n).drain.Drained? && After(w, events, n).pool.executors == []
    decreases n
  {
    hide Turn, PoolOk, WorkLeft;
    ReachableDrainOk(w, events, n);
    if m < n {
      DrainGuarantee(w, events, m, n - 1);
      ReachablePoolOk(w, events, n - 1);
      ReachableDrainOk(w, events, n - 1);
      TurnDrains(w, After(w, events, n - 1), events[n - 1]);
    }
  }

  lemma {:induction false} TurnKeepsDraining(w: World, s: State, e: Event)
    ensures s.pool.draining || e.BeginDrain? || e.AwaitDrain? ==> Turn(w, s, e).pool.draining
    ensures !s.drain.NotDraining? || e.AwaitDrain? ==> !Turn(w, s, e).drain.NotDraining?
  {
    hide Step, CallOf, Feed, Judge, Verdict, Enabled, Buildable, PreConnect, PlanOf, AllDone;
  }

  /**
  Asking for a drain, awaited or not, starts one, and nothing ends it: not the end of the calls, nor a close. One that
  is awaited is under way, or has returned, ever after.
  */
  lemma {:induction false} DrainBegins(w: World, events: seq<Event>, m: nat, n: nat)
    requires m < n <= |events| && (events[m].BeginDrain? || events[m].AwaitDrain?)
    ensures After(w, events, n).pool.draining
    ensures events[m].AwaitDrain? ==> !After(w, events, n).drain.NotDraining?
    decreases n
  {
    hide Turn;
    if m < n - 1 {
      DrainBegins(w, events, m, n - 1);
    }
    TurnKeepsDraining(w, After(w, events, n - 1), events[n - 1]);
  }

  // ---------------------------------------------------------------------------------------------
  // What a drain that returned leaves behind
  // ---------------------------------------------------------------------------------------------

  lemma {:induction false} NobodyLive(w: World, s: State, r: Resource)
    requires JobsOk(w, s.jobs) && PoolOk(s) && s.pool.executors == [] && w.endHook
    ensures Count(s.jobs, LiveUsing(r)) == 0
  {
    hide EntryOk, Sound, Starts, Ends, Uses;
    forall id | id in s.jobs ensures !In(LiveUsing(r), s.jobs[id]) {
      EverythingReported(w, s, id);
    }
    assert Members(s.jobs, LiveUsing(r)) == {};
  }

  /** With no executor tracked, every launched call is over and, given the end hook, has its end. */
  lemma {:induction false} EverythingReported(w: World, s: State, id: nat)
    requires JobsOk(w, s.jobs) && PoolOk(s) && s.pool.executors == [] && id in s.jobs
    ensures s.jobs[id].Running? ==> s.jobs[id].retired && s.jobs[id].job.phase.Done?
    ensures w.endHook ==> Starts(Signals(s.jobs[id])) == Ends(Signals(s.jobs[id]))
  {
    hide Sound;
    assert EntryOk(w, s.jobs[id]);
    assert !Tracked(s.jobs, id);
    SilentEntry();
    if s.jobs[id].Running? {
      SoundCounts(s.jobs[id].job);
    }
  }

  lemma {:induction false} SilentEntry()
    ensures Starts([]) == 0 && Ends([]) == 0
  {
  }

  /**
  Once `drain` has returned the worker is settled: nothing is tracked, every launched call is over, as many
  executors were closed as were created, and, with the end hook wired, every started session has its end
  and every gauge is gone.
  */
  lemma {:induction false} DrainReturnsSettled(w: World, events: seq<Event>, n: nat)
    requires n <= |events| && After(w, events, n).drain.Drained? && w.supervisor.limit > 0
    ensures var s := After(w, events, n);
            && s.pool.executors == []
            && CountKind(s.pool.log, ProcessCreated) == CountKind(s.pool.log, ProcessClosed)
            && (forall id :: id in s.jobs && s.jobs[id].Running? ==> s.jobs[id].job.phase.Done?)
            && (w.endHook ==>
                  && (forall id :: id in s.jobs ==> Starts(Signals(s.jobs[id])) == Ends(Signals(s.jobs[id])))
                  && s.metrics.counters.byAgent == map[] && s.metrics.counters.byTenant == map[])
  {
    hide Turn, Starts, Ends, JobsOk, CountKind, Count, LogOk, Vigilant;
    ReachableJobsOk(w, events, n);
    ReachableDrainOk(w, events, n);
    PoolEventsBalanced(w, events, n);
    var s := After(w, events, n);
    forall id | id in s.jobs
      ensures s.jobs[id].Running? ==> s.jobs[id].job.phase.Done?
      ensures w.endHook ==> Starts(Signals(s.jobs[id])) == Ends(Signals(s.jobs[id]))
    {
      EverythingReported(w, s, id);
    }
    if w.endHook {
      GaugesConserved(w, events, n);
      var c := s.metrics.counters;
      forall agent: string ensures agent !in c.byAgent {
        NobodyLive(w, s, OfAgent(agent));
      }
      forall tenant: string ensures tenant !in c.byTenant {
        NobodyLive(w, s, OfTenant(tenant));
      }
    }
  }

  // ---------------------------------------------------------------------------------------------
  // What a drain waits for
  // ---------------------------------------------------------------------------------------------

  /** The event loop can go on with this executor by itself: its callback is due, or its task has a step of its own. */
  ghost predicate Moves(w: World, s: State, id: nat)
    requires id in s.jobs && s.jobs[id].Running?
  {
    Happens(w, s, DoneCallback(id)) || exists e :: Happens(w, s, Task(id, e)) && OwnStep(s.jobs[id].job, e)
  }

  /** A drain waits for somebody else exactly while a tracked call is held open, not asked to end and not cancelled. */
  lemma {:induction false} DrainWaitsExactly(w: World, events: seq<Event>, n: nat, id: nat)
    requires n <= |events| && id in After(w, events, n).pool.executors
    ensures var s := After(w, events, n);
            && id in s.jobs && s.jobs[id].Running?
            && var j := s.jobs[id].job;
               Moves(w, s, id) <==> !(j.phase.HeldOpen? && !j.shutdown && !j.cancelRequested)
  {
    hide Turn, Step, Enabled;
    ReachablePoolOk(w, events, n);
    var s := After(w, events, n);
    assert Tracked(s.jobs, id);
    var j := s.jobs[id].job;
    WaitsExactly(j);
    if CanProceed(j) {
      BuildableStep(w, s.jobs[id]);
    }
  }

  lemma {:induction false} BuildableStep(w: World, e: Entry)
    requires e.Running? && CanProceed(e.job)
    ensures exists event :: OwnStep(e.job, event) && Buildable(e.call, event)
  {
    hide Step;
    var event :| OwnStep(e.job, event);
    if event.FirstStep? {
      assert OwnStep(e.job, FirstStep(Ending.Raised(""), Returned)) && Buildable(e.call, FirstStep(Ending.Raised(""), Returned));
    } else {
      assert Buildable(e.call, event);
    }
  }

  /** What the event loop does by itself: tasks taking their own steps, callbacks, and the drain looking again. */
  predicate Unforced(s: State, e: Event) {
    match e
    case Task(id, event) => id in s.jobs && s.jobs[id].Running? && OwnStep(s.jobs[id].job, event)
    case DoneCallback(_) => true
    case DrainLooks => true
    case _ => false
  }

  ghost predicate AllUnforced(w: World, s: State, more: seq<Event>) {
    forall i :: 0 <= i < |more| ==> Unforced(Then(w, s, more, i), more[i])
  }

  /** Left alone, the drain can return. */
  ghost predicate CanReturn(w: World, s: State) {
    exists more :: AllUnforced(w, s, more) && Then(w, s, more, |more|).drain.Drained?
  }

  predicate HeldUpIn(s: State, id: nat) {
    id in s.jobs && s.jobs[id].Running? && HeldUp(s.jobs[id].job)
  }

  /** The executors a drain has joined were launched. */
  ghost predicate JoinOk(s: State) {
    s.drain.Joining? ==> forall i :: 0 <= i < |s.drain.ids| ==> s.drain.ids[i] in s.jobs && s.jobs[s.drain.ids[i]].Running?
  }

  lemma {:induction false} TurnKeepsJoinOk(w: World, s: State, e: Event)
    requires PoolOk(s) && JoinOk(s)
    ensures JoinOk(Turn(w, s, e))
  {
    hide Step, CallOf, Feed, Judge, Launch, Retire, Verdict, Enabled, Buildable, PreConnect, PlanOf, AllDone;
    if e.DrainLooks? || e.AwaitDrain? {
      forall i | 0 <= i < |s.pool.executors| ensures Tracked(s.jobs, s.pool.executors[i]) {
        assert s.pool.executors[i] in s.pool.executors;
      }
    }
  }

  lemma {:induction false} ReachableJoinOk(w: World, events: seq<Event>, n: nat)
    requires n <= |events|
    ensures JoinOk(After(w, events, n))
    decreases n
  {
    hide Turn, PoolOk, JoinOk;
    if n > 0 {
      ReachableJoinOk(w, events, n - 1);
      ReachablePoolOk(w, events, n - 1);
      TurnKeepsJoinOk(w, After(w, events, n - 1), events[n - 1]);
    } else {
      NoDrainYet();
    }
  }

  lemma {:induction false} NoDrainYet()
    ensures JoinOk(Boot)
  {
  }

  lemma {:induction false} HeldUpTurn(w: World, s: State, e: Event, id: nat)
    requires HeldUpIn(s, id) && Unforced(s, e)
    ensures HeldUpIn(Turn(w, s, e), id)
  {
  }

  /** A held-up call keeps the drain waiting. */
  lemma {:induction false} HeldUpBlocks(w: World, s: State, more: seq<Event>, n: nat, id: nat)
    requires n <= |more| && AllUnforced(w, s, more)
    requires PoolOk(s) && DrainOk(s) && HeldUpIn(s, id) && Tracked(s.jobs, id)
    ensures var t := Then(w, s, more, n);
            PoolOk(t) && DrainOk(t) && HeldUpIn(t, id) && Tracked(t.jobs, id) && !t.drain.Drained?
    decreases n
  {
    hide Turn, PoolOk, HeldUp, Unforced;
    if n > 0 {
      HeldUpBlocks(w, s, more, n - 1, id);
      var t := Then(w, s, more, n - 1);
      TurnPoolOk(w, t, more[n - 1]);
      TurnKeepsDrainOk(w, t, more[n - 1]);
      HeldUpTurn(w, t, more[n - 1], id);
      StaysTracked(w, t, more[n - 1], id);
    }
    TrackedMeansListed(Then(w, s, more, n), id);
  }

  lemma {:induction false} TrackedMeansListed(s: State, id: nat)
    requires PoolOk(s) && Tracked(s.jobs, id)
    ensures s.pool.executors != []
  {
  }

  lemma {:induction false} StaysTracked(w: World, s: State, e: Event, id: nat)
    requires HeldUpIn(s, id) && Tracked(s.jobs, id) && Unforced(s, e)
    ensures Tracked(Turn(w, s, e).jobs, id)
  {
  }

  // ---------------------------------------------------------------------------------------------
  // Where nobody is held up, the drain finds its way to the end
  // ---------------------------------------------------------------------------------------------

  lemma {:induction false} UnforcedMore(w: World, s: State, a: seq<Event>, b: seq<Event>)
    requires AllUnforced(w, s, a) && AllUnforced(w, Then(w, s, a, |a|), b)
    ensures AllUnforced(w, s, a + b)
    ensures Then(w, s, a + b, |a + b|) == Then(w, Then(w, s, a, |a|), b, |b|)
  {
    hide Turn, Unforced, Then;
    forall i | 0 <= i < |a + b| ensures Unforced(Then(w, s, a + b, i), (a + b)[i]) {
      if i < |a| {
        ThenIgnoresLater(w, s, a, b, i);
      } else {
        ThenMore(w, s, a, b, i - |a|);
      }
    }
    ThenMore(w, s, a, b, |b|);
  }

  lemma {:induction false} UnforcedOne(w: World, s: State, e: Event)
    requires Unforced(s, e)
    ensures AllUnforced(w, s, [e]) && Then(w, s, [e], |[e]|) == Turn(w, s, e)
  {
  }

  lemma {:induction false} NothingUnforced(w: World, s: State)
    ensures AllUnforced(w, s, []) && Then(w, s, [], 0) == s
  {
  }

  lemma {:induction false} TaskStep(w: World, s: State, id: nat)
    requires Tracked(s.jobs, id) && !HeldUpIn(s, id) && !s.jobs[id].job.phase.Done?
    ensures var e := Task(id, WayOut(s.jobs[id].job));
            var t := Turn(w, s, e);
            && Unforced(s, e) && t.pool == s.pool && t.drain == s.drain
            && t.jobs.Keys == s.jobs.Keys && Tracked(t.jobs, id) && !HeldUpIn(t, id)
            && (forall other :: other in s.jobs && other != id ==> t.jobs[other] == s.jobs[other])
            && Rank(t.jobs[id].job.phase) < Rank(s.jobs[id].job.phase)
  {
    hide Step, HeldUp, Feed, Judge, Enabled, Rank;
    var j := s.jobs[id].job;
    WayOutGoesOn(j);
    OwnStepLowers(j, WayOut(j));
  }

  /** The task of one executor comes to its end; nobody else is touched. */
  lemma {:induction false} EndTask(w: World, s: State, id: nat) returns (more: seq<Event>)
    requires Tracked(s.jobs, id) && !HeldUpIn(s, id)
    ensures AllUnforced(w, s, more)
    ensures var t := Then(w, s, more, |more|);
            && t.pool == s.pool && t.drain == s.drain && t.jobs.Keys == s.jobs.Keys
            && Tracked(t.jobs, id) && t.jobs[id].job.phase.Done?
            && forall other :: other in s.jobs && other != id ==> t.jobs[other] == s.jobs[other]
    decreases Rank(s.jobs[id].job.phase)
  {
    hide Turn, HeldUp, WayOut, Rank, Unforced, Then, AllUnforced;
    NothingUnforced(w, s);
    more := [];
    if !s.jobs[id].job.phase.Done? {
      var e := Task(id, WayOut(s.jobs[id].job));
      TaskStep(w, s, id);
      UnforcedOne(w, s, e);
      var rest := EndTask(w, Turn(w, s, e), id);
      UnforcedMore(w, s, [e], rest);
      more := [e] + rest;
    }
  }

  lemma {:induction false} CallbackStep(w: World, s: State, id: nat)
    requires Tracked(s.jobs, id) && s.jobs[id].job.phase.Done? && id in s.pool.executors
    ensures var t := Turn(w, s, DoneCallback(id));
            && t.drain == s.drain && t.jobs.Keys == s.jobs.Keys
            && t.pool.executors == RemoveFirst(s.pool.executors, id)
            && (forall other :: other in s.jobs && other != id ==> t.jobs[other] == s.jobs[other])
  {
  }

  /** Ended and retired. */
  lemma {:induction false} ClearOne(w: World, s: State, id: nat) returns (more: seq<Event>)
    requires PoolOk(s) && id in s.pool.executors && !HeldUpIn(s, id)
    ensures AllUnforced(w, s, more)
    ensures var t := Then(w, s, more, |more|);
            && t.drain == s.drain && t.jobs.Keys == s.jobs.Keys
            && t.pool.executors == RemoveFirst(s.pool.executors, id)
            && forall other :: other in s.jobs && other != id ==> t.jobs[other] == s.jobs[other]
  {
    hide Turn, HeldUpIn, Then, AllUnforced;
    var first := EndTask(w, s, id);
    var t := Then(w, s, first, |first|);
    CallbackStep(w, t, id);
    UnforcedOne(w, t, DoneCallback(id));
    UnforcedMore(w, s, first, [DoneCallback(id)]);
    more := first + [DoneCallback(id)];
  }

  lemma {:induction false} ThenKeeps(w: World, s: State, more: seq<Event>, n: nat)
    requires n <= |more| && JobsOk(w, s.jobs) && PoolOk(s) && JoinOk(s)
    ensures var t := Then(w, s, more, n); JobsOk(w, t.jobs) && PoolOk(t) && JoinOk(t)
    decreases n
  {
    hide Turn, JobsOk, PoolOk, JoinOk;
    if n > 0 {
      ThenKeeps(w, s, more, n - 1);
      var t := Then(w, s, more, n - 1);
      TurnJobsOk(w, t, more[n - 1]);
      TurnPoolOk(w, t, more[n - 1]);
      TurnKeepsJoinOk(w, t, more[n - 1]);
    }
  }

  lemma {:induction false} LastLook(w: World, s: State)
    requires JobsOk(w, s.jobs) && PoolOk(s) && JoinOk(s) && s.drain.Joining? && s.pool.executors == []
    ensures Turn(w, s, DrainLooks).drain.Drained?
  {
    hide Sound;
    forall i | 0 <= i < |s.drain.ids| ensures s.jobs[s.drain.ids[i]].job.phase.Done? {
      assert !Tracked(s.jobs, s.drain.ids[i]);
      assert EntryOk(w, s.jobs[s.drain.ids[i]]);
    }
  }

  lemma {:induction false} DrainFrom(w: World, s: State) returns (more: seq<Event>)
    requires JobsOk(w, s.jobs) && PoolOk(s) && JoinOk(s) && s.drain.Joining?
    requires forall id :: id in s.pool.executors ==> !HeldUpIn(s, id)
    ensures AllUnforced(w, s, more) && Then(w, s, more, |more|).drain.Drained?
    decreases |s.pool.executors|
  {
    hide Turn, JobsOk, JoinOk, HeldUp, Then, AllUnforced;
    if s.pool.executors == [] {
      LastLook(w, s);
      UnforcedOne(w, s, DrainLooks);
      more := [DrainLooks];
    } else {
      var id := s.pool.executors[0];
      var first := ClearOne(w, s, id);
      var t := Then(w, s, first, |first|);
      ThenKeeps(w, s, first, |first|);
      RemoveFirstDistinct(s.pool.executors, id);
      forall other | other in t.pool.executors ensures !HeldUpIn(t, other) {
        assert other in s.pool.executors && other != id && Tracked(s.jobs, other);
      }
      var rest := DrainFrom(w, t);
      UnforcedMore(w, s, first, rest);
      more := first + rest;
    }
  }

  /**
  The drain's liveness, exactly: in a reachable state with a drain under way, the event loop can bring it to
  its return without anybody cancelling a task or shutting a room down if and only if no tracked call is held
  up. Where one is, the drain waits for that call's room.
  */
  lemma {:induction false} DrainReturnsExactly(w: World, events: seq<Event>, n: nat)
    requires n <= |events| && After(w, events, n).drain.Joining?
    ensures var s := After(w, events, n);
            CanReturn(w, s) <==> forall id :: id in s.pool.executors ==> !HeldUpIn(s, id)
  {
    hide Turn, HeldUp, Then, AllUnforced, JobsOk, JoinOk;
    ReachableJobsOk(w, events, n);
    ReachablePoolOk(w, events, n);
    ReachableDrainOk(w, events, n);
    ReachableJoinOk(w, events, n);
    var s := After(w, events, n);
    if id :| id in s.pool.executors && HeldUpIn(s, id) {
      forall more | AllUnforced(w, s, more) ensures !Then(w, s, more, |more|).drain.Drained? {
        HeldUpBlocks(w, s, more, |more|, id);
      }
    } else {
      var more := DrainFrom(w, s);
    }
  }
}
