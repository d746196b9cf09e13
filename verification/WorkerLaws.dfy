/** What every reachable state of a worker keeps: its jobs, its pool and the events the pool emitted. */
module WorkerLaws {
  import opened Wrappers
  import opened Routing
  import opened RequestFilter
  import opened SessionRun
  import opened SessionLaws
  import opened CoroutinePool
  import opened SupervisorLaws
  import opened Worker

  // ---------------------------------------------------------------------------------------------
  // Jobs
  // ---------------------------------------------------------------------------------------------

  /** A job that cannot build its session reports nothing, ever. */
  predicate NeverBuilt(j: Job) {
    j.signals == [] && j.pending.None? && (j.phase.Scheduled? || j.phase.EndHook? || j.phase.Done?)
  }

  ghost predicate CallOk(w: World, call: Call) {
    PreConnect(call.ctx) && call == CallOf(w, call.ctx)
  }

  ghost predicate EntryOk(w: World, e: Entry) {
    && CallOk(w, e.call)
    && (e.Running? ==>
          && Sound(e.job)
          && e.job.plan.endHook == w.endHook
          && (e.retired ==> e.job.phase.Done?)
          && (if e.call.session.Some? then
                Identity(e.job.plan.agent, e.job.plan.tenant) == e.call.session.value
              else NeverBuilt(e.job)))
  }

  ghost predicate JobsOk(w: World, jobs: map<nat, Entry>) {
    forall id :: id in jobs ==> EntryOk(w, jobs[id])
  }

  lemma {:induction false} UnbuiltStaysUnbuilt(j: Job, e: TaskEvent)
    requires NeverBuilt(j) && Enabled(j, e)
    requires e.FirstStep? && e.setup.Returned? ==> !e.build.Returned?
    ensures NeverBuilt(Step(j, e))
  {
  }

  lemma {:induction false} LaunchedEntryOk(w: World, call: Call, shape: Shape)
    requires CallOk(w, call)
    ensures EntryOk(w, Running(call, Launched(PlanOf(w, call, shape)), false))
  {
  }

  lemma {:induction false} TaskEntryOk(w: World, e: Entry, event: TaskEvent)
    requires e.Running? && EntryOk(w, e) && Enabled(e.job, event) && Buildable(e.call, event)
    ensures EntryOk(w, e.(job := Step(e.job, event)))
  {
    hide Step, Sound, NeverBuilt, CallOk;
    StepSound(e.job, event);
    TaskMovesForward(e.job, event);
    if e.call.session.None? {
      UnbuiltStaysUnbuilt(e.job, event);
    }
  }

  lemma {:induction false} TurnJobsOk(w: World, s: State, e: Event)
    requires JobsOk(w, s.jobs)
    ensures JobsOk(w, Turn(w, s, e).jobs)
  {
    hide Step, EntryOk, CallOf, Feed, Judge, Launch, Retire, Verdict, Enabled, Buildable, PreConnect, PlanOf;
    if Happens(w, s, e) {
      match e {
        case Offer(id, ctx, _) => WaitingOk(w, ctx);
        case Answer(id, _) => GoneOk(w, s.jobs[id]);
        case Withdraw(id) => GoneOk(w, s.jobs[id]);
        case LaunchJob(id, shape, _) =>
          GoneOk(w, s.jobs[id]);
          LaunchedEntryOk(w, s.jobs[id].call, shape);
        case Task(id, event) => TaskEntryOk(w, s.jobs[id], event);
        case DoneCallback(id) => RetiredOk(w, s.jobs[id]);
        case _ =>
      }
    }
  }

  lemma {:induction false} WaitingOk(w: World, ctx: Context)
    requires PreConnect(ctx)
    ensures EntryOk(w, Waiting(CallOf(w, ctx))) && EntryOk(w, Deciding(CallOf(w, ctx)))
  {
  }

  lemma {:induction false} GoneOk(w: World, e: Entry)
    requires EntryOk(w, e)
    ensures EntryOk(w, Gone(e.call)) && EntryOk(w, Misfired(e.call)) && EntryOk(w, Waiting(e.call)) && CallOk(w, e.call)
  {
  }

  lemma {:induction false} RetiredOk(w: World, e: Entry)
    requires e.Running? && EntryOk(w, e) && e.job.phase.Done?
    ensures EntryOk(w, e.(retired := true))
  {
  }

  lemma {:induction false} ReachableJobsOk(w: World, events: seq<Event>, n: nat)
    requires n <= |events|
    ensures JobsOk(w, After(w, events, n).jobs)
    decreases n
  {
    hide Turn, EntryOk;
    if n > 0 {
      ReachableJobsOk(w, events, n - 1);
      TurnJobsOk(w, After(w, events, n - 1), events[n - 1]);
    }
  }

  /**
  The exactly-once end of the session lifecycle, in a whole worker: no call ever reports two starts or
  two ends, and once a task is done its started session has been reported finished, unless the pool was
  wired without an end hook and the end is still stored on the context.
  */
  lemma {:induction false} EveryEndReportedOnce(w: World, events: seq<Event>, n: nat, id: nat)
    requires n <= |events| && id in After(w, events, n).jobs && After(w, events, n).jobs[id].Running?
    ensures var j := After(w, events, n).jobs[id].job;
            && Ends(j.signals) <= Starts(j.signals) <= 1
            && (j.phase.Done? && w.endHook ==> Ends(j.signals) == Starts(j.signals))
            && (j.phase.Done? && Ends(j.signals) < Starts(j.signals) ==> MayLoseEnd(j.plan) && j.pending.Some?)
  {
    hide Sound, Turn;
    ReachableJobsOk(w, events, n);
    SoundCounts(After(w, events, n).jobs[id].job);
  }

  // ---------------------------------------------------------------------------------------------
  // The pool tracks exactly the launched, unretired jobs
  // ---------------------------------------------------------------------------------------------

  predicate Tracked(jobs: map<nat, Entry>, id: nat) {
    id in jobs && jobs[id].Running? && !jobs[id].retired
  }

  ghost predicate Distinct(ids: seq<nat>) {
    forall i, j :: 0 <= i < j < |ids| ==> ids[i] != ids[j]
  }

  ghost predicate PoolOk(s: State) {
    && Distinct(s.pool.executors)
    && forall id :: id in s.pool.executors <==> Tracked(s.jobs, id)
  }

  lemma {:induction false} RemoveFirstDistinct(ids: seq<nat>, id: nat)
    requires Distinct(ids)
    ensures Distinct(RemoveFirst(ids, id))
    ensures forall x :: x in RemoveFirst(ids, id) <==> x in ids && x != id
    ensures |RemoveFirst(ids, id)| == |ids| - if id in ids then 1 else 0
    decreases |ids|
  {
    if ids != [] {
      var rest := ids[1..];
      RemoveFirstDistinct(rest, id);
      assert forall x :: x in ids <==> x == ids[0] || x in rest;
      assert ids[0] !in rest;
    }
  }

  lemma {:induction false} RemoveAppended(ids: seq<nat>, id: nat)
    requires id !in ids
    ensures RemoveFirst(ids + [id], id) == ids
    decreases |ids|
  {
    if ids != [] {
      assert (ids + [id])[1..] == ids[1..] + [id];
      RemoveAppended(ids[1..], id);
    }
  }

  /** Retiring takes the executor off the list and emits its closed event, if it was tracked. */
  lemma {:induction false} RetireEffect(sup: Supervisor, p: PoolState, id: nat, status: JobStatus)
    ensures var q := Retire(sup, p, id, status);
            && q.started == p.started && q.draining == p.draining
            && q.executors == (if id in p.executors then RemoveFirst(p.executors, id) else p.executors)
            && q.log == p.log + if id in p.executors then [Emission(ProcessClosed, id)] else []
  {
  }

  /** What a launch of a new executor does to the list and the events. */
  lemma {:induction false} LaunchEffect(sup: Supervisor, p: PoolState, id: nat, fails: bool)
    requires id !in p.executors
    ensures var q := Launch(sup, p, id, fails);
            && q.started == p.started && q.draining == p.draining
            && if !p.started || p.draining then q == p
               else
                 && q.executors == (if fails then p.executors else p.executors + [id])
                 && q.log == p.log + [Emission(ProcessCreated, id), Emission(ProcessStarted, id), Emission(ProcessReady, id)]
                             + [Emission(if fails then ProcessClosed else ProcessJobLaunched, id)]
  {
    hide Retire;
    RetireEffect(sup, Admit(p, id), id, RUNNING);
    RemoveAppended(p.executors, id);
  }

  lemma {:induction false} TurnPoolOk(w: World, s: State, e: Event)
    requires PoolOk(s)
    ensures PoolOk(Turn(w, s, e))
  {
    hide Step, CallOf, Feed, Judge, Launch, Retire, Verdict, Enabled, Buildable, PreConnect, PlanOf, AllDone;
    if Happens(w, s, e) {
      match e {
        case LaunchJob(id, _, fails) =>
          assert !Tracked(s.jobs, id);
          LaunchEffect(w.supervisor, s.pool, id, fails);
        case DoneCallback(id) =>
          RetireEffect(w.supervisor, s.pool, id, s.jobs[id].job.status);
          RemoveFirstDistinct(s.pool.executors, id);
        case _ =>
      }
    }
  }

  lemma {:induction false} ReachablePoolOk(w: World, events: seq<Event>, n: nat)
    requires n <= |events|
    ensures PoolOk(After(w, events, n))
    decreases n
  {
    hide Turn;
    if n > 0 {
      ReachablePoolOk(w, events, n - 1);
      TurnPoolOk(w, After(w, events, n - 1), events[n - 1]);
    }
  }

  // ---------------------------------------------------------------------------------------------
  // The pool's events
  // ---------------------------------------------------------------------------------------------

  function EventsFor(log: seq<Emission>, id: nat): seq<EventKind>
    decreases |log|
  {
    if log == [] then []
    else EventsFor(log[..|log| - 1], id) + if log[|log| - 1].id == id then [log[|log| - 1].kind] else []
  }

  lemma {:induction false} EventsForAppend(log: seq<Emission>, more: seq<Emission>, id: nat)
    ensures EventsFor(log + more, id) == EventsFor(log, id) + EventsFor(more, id)
    decreases |more|
  {
    if more == [] {
      assert log + more == log;
    } else {
      var init := more[..|more| - 1];
      EventsForAppend(log, init, id);
      assert (log + more)[..|log + more| - 1] == log + init;
    }
  }

  /** The events an executor's life has come to. */
  function LifeOf(jobs: map<nat, Entry>, id: nat): seq<EventKind> {
    if id !in jobs then []
    else match jobs[id]
      case Deciding(_) => []
      case Waiting(_) => []
      case Gone(_) => []
      case Misfired(_) => [ProcessCreated, ProcessStarted, ProcessReady, ProcessClosed]
      case Running(_, _, retired) =>
        [ProcessCreated, ProcessStarted, ProcessReady, ProcessJobLaunched] + if retired then [ProcessClosed] else []
  }

  ghost predicate LogOk(s: State) {
    forall id: nat :: EventsFor(s.pool.log, id) == LifeOf(s.jobs, id)
  }

  lemma {:induction false} LaunchLog(id: nat, last: EventKind, other: nat)
    ensures EventsFor([Emission(ProcessCreated, id), Emission(ProcessStarted, id), Emission(ProcessReady, id)]
                      + [Emission(last, id)], other)
            == if other == id then [ProcessCreated, ProcessStarted, ProcessReady, last] else []
  {
    hide EventsFor;
    var c, s, r, l := Emission(ProcessCreated, id), Emission(ProcessStarted, id), Emission(ProcessReady, id), Emission(last, id);
    EventsForAppend([c], [s], other);
    EventsForAppend([c, s], [r], other);
    EventsForAppend([c, s, r], [l], other);
    OneEvent(c, other);
    OneEvent(s, other);
    OneEvent(r, other);
    OneEvent(l, other);
    assert [c] + [s] == [c, s] && [c, s] + [r] == [c, s, r];
  }

  lemma {:induction false} OneEvent(e: Emission, id: nat)
    ensures EventsFor([e], id) == if e.id == id then [e.kind] else []
  {
  }

  lemma {:induction false} TurnLogOk(w: World, s: State, e: Event)
    requires PoolOk(s) && LogOk(s)
    ensures LogOk(Turn(w, s, e))
  {
    hide Step, CallOf, Feed, Judge, Launch, Retire, Verdict, Enabled, Buildable, PreConnect, PlanOf, AllDone, EventsFor;
    if Happens(w, s, e) {
      var t := Turn(w, s, e);
      match e {
        case LaunchJob(id, _, fails) =>
          assert !Tracked(s.jobs, id);
          LaunchEffect(w.supervisor, s.pool, id, fails);
          if s.pool.started && !s.pool.draining {
            var more := [Emission(ProcessCreated, id), Emission(ProcessStarted, id), Emission(ProcessReady, id)]
                        + [Emission(if fails then ProcessClosed else ProcessJobLaunched, id)];
            assert t.pool.log == s.pool.log + more;
            forall other: nat ensures EventsFor(t.pool.log, other) == LifeOf(t.jobs, other) {
              EventsForAppend(s.pool.log, more, other);
              LaunchLog(id, if fails then ProcessClosed else ProcessJobLaunched, other);
            }
          }
        case DoneCallback(id) =>
          RetireEffect(w.supervisor, s.pool, id, s.jobs[id].job.status);
          forall other: nat ensures EventsFor(t.pool.log, other) == LifeOf(t.jobs, other) {
            EventsForAppend(s.pool.log, [Emission(ProcessClosed, id)], other);
            OneEvent(Emission(ProcessClosed, id), other);
          }
        case _ =>
      }
    }
  }

  function CountKind(log: seq<Emission>, kind: EventKind): nat
    decreases |log|
  {
    if log == [] then 0
    else CountKind(log[..|log| - 1], kind) + if log[|log| - 1].kind == kind then 1 else 0
  }

  lemma {:induction false} CountKindAppend(log: seq<Emission>, more: seq<Emission>, kind: EventKind)
    ensures CountKind(log + more, kind) == CountKind(log, kind) + CountKind(more, kind)
    decreases |more|
  {
    if more == [] {
      assert log + more == log;
    } else {
      var init := more[..|more| - 1];
      CountKindAppend(log, init, kind);
      assert (log + more)[..|log + more| - 1] == log + init;
    }
  }

  ghost predicate Balanced(p: PoolState) {
    CountKind(p.log, ProcessCreated) == CountKind(p.log, ProcessClosed) + |p.executors|
  }

  lemma {:induction false} LaunchCounts(id: nat, last: EventKind)
    requires last.ProcessClosed? || last.ProcessJobLaunched?
    ensures var more := [Emission(ProcessCreated, id), Emission(ProcessStarted, id), Emission(ProcessReady, id)]
                        + [Emission(last, id)];
            && CountKind(more, ProcessCreated) == 1
            && CountKind(more, ProcessClosed) == if last.ProcessClosed? then 1 else 0
  {
    hide CountKind;
    var c, s, r, l := Emission(ProcessCreated, id), Emission(ProcessStarted, id), Emission(ProcessReady, id), Emission(last, id);
    forall kind: EventKind ensures CountKind([c, s, r] + [l], kind)
        == CountKind([c], kind) + CountKind([s], kind) + CountKind([r], kind) + CountKind([l], kind) {
      CountKindAppend([c], [s], kind);
      CountKindAppend([c, s], [r], kind);
      CountKindAppend([c, s, r], [l], kind);
      assert [c] + [s] == [c, s] && [c, s] + [r] == [c, s, r];
    }
    OneCount(c);
    OneCount(s);
    OneCount(r);
    OneCount(l);
  }

  lemma {:induction false} OneCount(e: Emission)
    ensures forall kind: EventKind :: CountKind([e], kind) == if e.kind == kind then 1 else 0
  {
  }

  lemma {:induction false} TurnBalanced(w: World, s: State, e: Event)
    requires PoolOk(s) && Balanced(s.pool)
    ensures Balanced(Turn(w, s, e).pool)
  {
    hide Step, CallOf, Feed, Judge, Launch, Retire, Verdict, Enabled, Buildable, PreConnect, PlanOf, AllDone, CountKind;
    if Happens(w, s, e) {
      var log := s.pool.log;
      match e {
        case LaunchJob(id, _, fails) =>
          assert !Tracked(s.jobs, id);
          LaunchEffect(w.supervisor, s.pool, id, fails);
          var last := if fails then ProcessClosed else ProcessJobLaunched;
          var more := [Emission(ProcessCreated, id), Emission(ProcessStarted, id), Emission(ProcessReady, id)]
                      + [Emission(last, id)];
          CountKindAppend(log, more, ProcessCreated);
          CountKindAppend(log, more, ProcessClosed);
          LaunchCounts(id, last);
          assert log + [Emission(ProcessCreated, id), Emission(ProcessStarted, id), Emission(ProcessReady, id)]
                 + [Emission(last, id)] == log + more;
        case DoneCallback(id) =>
          RetireEffect(w.supervisor, s.pool, id, s.jobs[id].job.status);
          RemoveFirstDistinct(s.pool.executors, id);
          CountKindAppend(log, [Emission(ProcessClosed, id)], ProcessCreated);
          CountKindAppend(log, [Emission(ProcessClosed, id)], ProcessClosed);
          OneCount(Emission(ProcessClosed, id));
        case _ =>
      }
    }
  }

  /**
  In every reachable state: no executor is tracked twice, exactly the launched jobs whose done callback
  has not run are tracked, as many executors were created as were closed or are tracked, each one's
  events are those of its life so far in order, and the supervisor is exact.
  */
  lemma {:induction false} PoolEventsBalanced(w: World, events: seq<Event>, n: nat)
    requires n <= |events| && w.supervisor.limit > 0
    ensures var s := After(w, events, n);
            PoolOk(s) && LogOk(s) && Balanced(s.pool) && Vigilant(w.supervisor, s.pool)
    decreases n
  {
    hide Turn, EventsFor, CountKind, Vigilant;
    if n == 0 {
      BootOk(w);
    } else {
      PoolEventsBalanced(w, events, n - 1);
      TurnPoolOk(w, After(w, events, n - 1), events[n - 1]);
      TurnLogOk(w, After(w, events, n - 1), events[n - 1]);
      TurnBalanced(w, After(w, events, n - 1), events[n - 1]);
      TurnVigilant(w, After(w, events, n - 1), events[n - 1]);
    }
  }

  lemma {:induction false} BootOk(w: World)
    requires w.supervisor.limit > 0
    ensures PoolOk(Boot) && LogOk(Boot) && Balanced(Boot.pool) && Vigilant(w.supervisor, Boot.pool)
  {
  }

  lemma {:induction false} TurnVigilant(w: World, s: State, e: Event)
    requires w.supervisor.limit > 0 && Vigilant(w.supervisor, s.pool)
    ensures Vigilant(w.supervisor, Turn(w, s, e).pool)
  {
    hide Step, CallOf, Feed, Judge, Launch, Retire, Verdict, Enabled, Buildable, PreConnect, PlanOf, AllDone, Vigilant;
    if Happens(w, s, e) {
      match e {
        case LaunchJob(id, _, fails) => LaunchVigilant(w.supervisor, s.pool, id, fails);
        case DoneCallback(id) => RetireVigilant(w.supervisor, s.pool, id, s.jobs[id].job.status);
        case _ => VigilantFrame(w.supervisor, s.pool, Turn(w, s, e).pool);
      }
    }
  }

  // ---------------------------------------------------------------------------------------------
  // What the supervisor observed
  // ---------------------------------------------------------------------------------------------

  /** The closed executors, in the order of their events. */
  function Closed(log: seq<Emission>): seq<nat>
    decreases |log|
  {
    if log == [] then []
    else Closed(log[..|log| - 1]) + if log[|log| - 1].kind.ProcessClosed? then [log[|log| - 1].id] else []
  }

  lemma {:induction false} ClosedAppend(log: seq<Emission>, more: seq<Emission>)
    ensures Closed(log + more) == Closed(log) + Closed(more)
    decreases |more|
  {
    if more == [] {
      assert log + more == log;
    } else {
      var init := more[..|more| - 1];
      ClosedAppend(log, init);
      assert (log + more)[..|log + more| - 1] == log + init;
    }
  }

  lemma {:induction false} ClosedCount(log: seq<Emission>)
    ensures |Closed(log)| == CountKind(log, ProcessClosed)
    decreases |log|
  {
    if log != [] {
      ClosedCount(log[..|log| - 1]);
    }
  }

  /** The status seen of an executor was a success exactly if its job's is, now and for good. */
  predicate SeenRightly(e: Entry, seen: JobStatus) {
    if e.Running? then e.retired && e.job.phase.Done? && (seen == SUCCESS <==> e.job.status == SUCCESS)
    else e.Misfired? && seen != SUCCESS
  }

  ghost predicate ObservedOk(s: State) {
    && |s.pool.observed| == |Closed(s.pool.log)|
    && forall i :: 0 <= i < |s.pool.observed| ==>
         Closed(s.pool.log)[i] in s.jobs && SeenRightly(s.jobs[Closed(s.pool.log)[i]], s.pool.observed[i])
  }

  lemma {:induction false} ClosedOfLaunch(id: nat, last: EventKind)
    requires last.ProcessClosed? || last.ProcessJobLaunched?
    ensures Closed([Emission(ProcessCreated, id), Emission(ProcessStarted, id), Emission(ProcessReady, id)]
                   + [Emission(last, id)])
            == if last.ProcessClosed? then [id] else []
  {
    hide Closed;
    var c, s, r, l := Emission(ProcessCreated, id), Emission(ProcessStarted, id), Emission(ProcessReady, id), Emission(last, id);
    ClosedAppend([c], [s]);
    ClosedAppend([c, s], [r]);
    ClosedAppend([c, s, r], [l]);
    OneClosed(c);
    OneClosed(s);
    OneClosed(r);
    OneClosed(l);
    assert [c] + [s] == [c, s] && [c, s] + [r] == [c, s, r];
  }

  lemma {:induction false} OneClosed(e: Emission)
    ensures Closed([e]) == if e.kind.ProcessClosed? then [e.id] else []
  {
  }

  lemma {:induction false} NothingClosed()
    ensures Closed([]) == [] && CountKind([], ProcessClosed) == 0
  {
  }

  /** What retiring and launching add to what was observed. */
  lemma {:induction false} ObservedEffect(sup: Supervisor, p: PoolState, id: nat, status: JobStatus, fails: bool)
    ensures Retire(sup, p, id, status).observed == p.observed + if id in p.executors then [status] else []
    ensures id !in p.executors ==>
              Launch(sup, p, id, fails).observed
              == p.observed + if p.started && !p.draining && fails then [RUNNING] else []
  {
    assert id in Admit(p, id).executors;
  }

  lemma {:induction false} StepKeepsSeen(e: Entry, event: TaskEvent, seen: JobStatus)
    requires e.Running? && SeenRightly(e, seen) && Enabled(e.job, event)
    ensures SeenRightly(e.(job := Step(e.job, event)), seen)
  {
    hide Step, Enabled;
    TaskMovesForward(e.job, event);
    DecidedStays(e.job, event);
  }

  lemma {:induction false} TurnKeepsObserved(w: World, s: State, e: Event)
    requires PoolOk(s) && ObservedOk(s)
    ensures ObservedOk(Turn(w, s, e))
  {
    hide Step, CallOf, Feed, Judge, Launch, Retire, Verdict, Enabled, Buildable, PreConnect, PlanOf, AllDone, Closed, SeenRightly;
    if Happens(w, s, e) {
      match e {
        case Offer(id, _, _) => NotSeenYet();
        case LaunchJob(id, _, fails) =>
          assert !Tracked(s.jobs, id);
          NotSeenYet();
          LaunchEffect(w.supervisor, s.pool, id, fails);
          ObservedEffect(w.supervisor, s.pool, id, RUNNING, fails);
          if s.pool.started && !s.pool.draining {
            var last := if fails then ProcessClosed else ProcessJobLaunched;
            var more := [Emission(ProcessCreated, id), Emission(ProcessStarted, id), Emission(ProcessReady, id)]
                        + [Emission(last, id)];
            ClosedAppend(s.pool.log, more);
            ClosedOfLaunch(id, last);
            assert Turn(w, s, e).pool.log == s.pool.log + more;
          }
        case Answer(id, _) => NotSeenYet();
        case Withdraw(id) => NotSeenYet();
        case Task(id, event) =>
          forall i | 0 <= i < |s.pool.observed| && Closed(s.pool.log)[i] == id
            ensures SeenRightly(Turn(w, s, e).jobs[id], s.pool.observed[i])
          {
            StepKeepsSeen(s.jobs[id], event, s.pool.observed[i]);
          }
        case DoneCallback(id) =>
          NotSeenYet();
          RetireEffect(w.supervisor, s.pool, id, s.jobs[id].job.status);
          ObservedEffect(w.supervisor, s.pool, id, s.jobs[id].job.status, false);
          ClosedAppend(s.pool.log, [Emission(ProcessClosed, id)]);
          OneClosed(Emission(ProcessClosed, id));
          assert Tracked(s.jobs, id);
        case _ =>
      }
    }
  }

  lemma {:induction false} NotSeenYet()
    ensures forall e: Entry, seen: JobStatus :: SeenRightly(e, seen) ==> e.Misfired? || (e.Running? && e.retired)
    ensures forall call: Call :: SeenRightly(Misfired(call), RUNNING)
    ensures forall e: Entry :: e.Running? && e.retired && e.job.phase.Done? ==> SeenRightly(e, e.job.status)
  {
  }

  /**
  The supervisor's record is the jobs': in every reachable state it has one entry for each closed event, in
  their order, and an entry is a success exactly if the status of that executor's job is, even if a close has
  written FAILED over RUNNING since.
  */
  lemma {:induction false} ObservedIsFinal(w: World, events: seq<Event>, n: nat)
    requires n <= |events|
    ensures var s := After(w, events, n);
            && |s.pool.observed| == CountKind(s.pool.log, ProcessClosed) == |Closed(s.pool.log)|
            && forall i :: 0 <= i < |s.pool.observed| ==>
                 Closed(s.pool.log)[i] in s.jobs && SeenRightly(s.jobs[Closed(s.pool.log)[i]], s.pool.observed[i])
    decreases n
  {
    hide Turn, PoolOk, Closed, SeenRightly, CountKind;
    if n == 0 {
      NothingClosed();
    } else {
      ObservedIsFinal(w, events, n - 1);
      ReachablePoolOk(w, events, n - 1);
      TurnKeepsObserved(w, After(w, events, n - 1), events[n - 1]);
      ClosedCount(After(w, events, n).pool.log);
    }
  }
}
