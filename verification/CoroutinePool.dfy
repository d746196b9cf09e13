/**
The pool of executors (src/openrtc/runtime/coroutine_runtime.py, lines 371 to 795): launching and
retiring executors, the lifecycle events it emits, draining, and the consecutive-failure supervisor.
*/
module CoroutinePool {
  import opened Wrappers
  import opened SessionRun
  import opened CoroutineJobExecutor
  import opened Metrics
  import opened CircuitBreaker

  datatype EventKind = ProcessCreated | ProcessStarted | ProcessReady | ProcessJobLaunched | ProcessClosed

  datatype Emission = Emission(kind: EventKind, id: nat)

  /** The supervisor: how many failures in a row trip it, and whether a callback listens. */
  datatype Supervisor = Supervisor(limit: nat, listening: bool)

  datatype PoolState = PoolState(
    executors: seq<nat>,
    started: bool,
    draining: bool,
    consecutiveFailures: nat,
    limitFired: bool,
    observed: seq<JobStatus>,  // the statuses of the executors retired so far, in order
    alerts: seq<nat>,          // the arguments of the supervisor callbacks made so far
    log: seq<Emission>)

  const Fresh := PoolState([], false, false, 0, false, [], [], [])

  function Observe(sup: Supervisor, p: PoolState, status: JobStatus): PoolState {
    var q := p.(observed := p.observed + [status]);
    if status == SUCCESS then q.(consecutiveFailures := 0, limitFired := false)
    else
      var failures := p.consecutiveFailures + 1;
      var trips := failures >= sup.limit && !p.limitFired;
      q.(consecutiveFailures := failures,
         limitFired := p.limitFired || trips,
         alerts := if trips && sup.listening then p.alerts + [failures] else p.alerts)
  }

  function RemoveFirst(ids: seq<nat>, id: nat): seq<nat>
    decreases |ids|
  {
    if ids == [] then [] else if ids[0] == id then ids[1..] else [ids[0]] + RemoveFirst(ids[1..], id)
  }

  function Retire(sup: Supervisor, p: PoolState, id: nat, status: JobStatus): PoolState {
    if id !in p.executors then p
    else Observe(sup, p.(executors := RemoveFirst(p.executors, id), log := p.log + [Emission(ProcessClosed, id)]), status)
  }

  function Admit(p: PoolState, id: nat): PoolState {
    p.(executors := p.executors + [id],
       log := p.log + [Emission(ProcessCreated, id), Emission(ProcessStarted, id), Emission(ProcessReady, id)])
  }

  /** A launch is refused by a stopped or draining pool, fails in the executor, or succeeds. */
  function Launch(sup: Supervisor, p: PoolState, id: nat, fails: bool): PoolState {
    if !p.started || p.draining then p
    else if fails then Retire(sup, Admit(p, id), id, RUNNING)
    else Admit(p, id).(log := Admit(p, id).log + [Emission(ProcessJobLaunched, id)])
  }

  // ---------------------------------------------------------------------------------------------
  // The pool object
  // ---------------------------------------------------------------------------------------------

  function IdsOf(executors: seq<Executor>): seq<nat> {
    seq(|executors|, i requires 0 <= i < |executors| => executors[i].id)
  }

  ghost predicate DistinctExecutors(executors: seq<Executor>) {
    forall i, j :: 0 <= i < j < |executors| ==> executors[i].id != executors[j].id
  }

  datatype LaunchResult = Refused | LaunchFailed | JobLaunched(executor: Executor)

  class Pool {
    const supervisor: Supervisor
    var executors: seq<Executor>
    var started: bool
    var draining: bool
    var consecutiveFailures: nat
    var failureLimitFired: bool
    var observed: seq<JobStatus>
    var alerts: seq<nat>
    var log: seq<Emission>

    constructor (supervisor: Supervisor)
      ensures this.supervisor == supervisor && Model() == Fresh && Valid()
    {
      this.supervisor := supervisor;
      executors, started, draining := [], false, false;
      consecutiveFailures, failureLimitFired := 0, false;
      observed, alerts, log := [], [], [];
    }

    ghost predicate Valid()
      reads this
    {
      DistinctExecutors(executors)
    }

    ghost function Model(): PoolState
      reads this
    {
      PoolState(IdsOf(executors), started, draining, consecutiveFailures, failureLimitFired, observed, alerts, log)
    }

    method Emit(kind: EventKind, executor: Executor)
      modifies this`log
      ensures log == old(log) + [Emission(kind, executor.id)]
    {
      log := log + [Emission(kind, executor.id)];
    }

    /** Whether the callback itself raises makes no difference: its exception is logged. */
    method ObserveExecutorStatus(status: JobStatus)
      modifies this`consecutiveFailures, this`failureLimitFired, this`alerts, this`observed
      ensures Model() == Observe(supervisor, old(Model()), status)
    {
      observed := observed + [status];
      if status == SUCCESS {
        consecutiveFailures := 0;
        failureLimitFired := false;
        return;
      }
      consecutiveFailures := consecutiveFailures + 1;
      if consecutiveFailures >= supervisor.limit && !failureLimitFired {
        failureLimitFired := true;
        if supervisor.listening {
          alerts := alerts + [consecutiveFailures];
        }
      }
    }

    method OnExecutorDone(executor: Executor)
      requires Valid()
      requires forall i :: 0 <= i < |executors| && executors[i].id == executor.id ==> executors[i] == executor
      modifies this
      ensures Valid() && Model() == Retire(supervisor, old(Model()), executor.id, executor.status)
    {
      IdsMember(executors, executor.id);
      if executor !in executors {
        assert executor.id !in IdsOf(executors);
        return;
      }
      executors := Without(executors, executor);
      Emit(ProcessClosed, executor);
      ObserveExecutorStatus(executor.status);
    }

    /** `fails` tells whether the executor refuses the job, for instance because no context can be built. */
    method LaunchJob(id: nat, plan: Plan, metrics: RuntimeMetricsStore, breaker: TenantCircuitBreaker?, fails: bool)
      returns (result: LaunchResult)
      requires Valid() && id !in IdsOf(executors)
      modifies this
      ensures Valid() && Model() == Launch(supervisor, old(Model()), id, fails)
      ensures result.Refused? <==> !old(started) || old(draining)
      ensures result.JobLaunched? <==> old(started) && !old(draining) && !fails
      ensures result.JobLaunched? ==> fresh(result.executor) && result.executor.id == id
                                      && result.executor.Model() == Launched(plan)
    {
      if !started {
        return Refused;
      }
      if draining {
        return Refused;
      }
      var executor := new Executor(id, plan, metrics, breaker);
      IdsMember(executors, id);
      executors := executors + [executor];
      assert IdsOf(executors) == IdsOf(old(executors)) + [id];
      Emit(ProcessCreated, executor);
      Emit(ProcessStarted, executor);
      Emit(ProcessReady, executor);
      assert Model() == Admit(old(Model()), id);
      if fails {
        OnExecutorDone(executor);
        return LaunchFailed;
      }
      Emit(ProcessJobLaunched, executor);
      return JobLaunched(executor);
    }

    method Start()
      modifies this`started
      ensures Model() == old(Model()).(started := true)
    {
      if started {
        return;
      }
      started := true;
    }

    method BeginDrain()
      modifies this`draining
      ensures Model() == old(Model()).(draining := true)
    {
      draining := true;
    }

    /** `aclose` up to the point where it cancels the executors it found. */
    method AcloseBegin() returns (toClose: seq<Executor>)
      modifies this`started
      ensures Model() == old(Model()).(started := false)
      ensures toClose == if old(started) then executors else []
    {
      if !started {
        return [];
      }
      started := false;
      toClose := executors;
    }
  }

  lemma {:induction false} IdsMember(executors: seq<Executor>, id: nat)
    ensures id in IdsOf(executors) <==> exists i :: 0 <= i < |executors| && executors[i].id == id
  {
    if id in IdsOf(executors) {
      var i :| 0 <= i < |executors| && IdsOf(executors)[i] == id;
    }
    if i :| 0 <= i < |executors| && executors[i].id == id {
      assert IdsOf(executors)[i] == id;
    }
  }

  /** `list.remove`: drops the first occurrence. */
  function Without(executors: seq<Executor>, executor: Executor): (r: seq<Executor>)
    requires executor in executors && DistinctExecutors(executors)
    ensures IdsOf(r) == RemoveFirst(IdsOf(executors), executor.id) && DistinctExecutors(r)
    ensures forall x :: x in r ==> x in executors
    decreases |executors|
  {
    assert IdsOf(executors)[1..] == IdsOf(executors[1..]);
    if executors[0] == executor then executors[1..]
    else
      var r := Without(executors[1..], executor);
      IdsOfCons(executors[0], r);
      DistinctCons(executors, r);
      [executors[0]] + r
  }

  lemma DistinctCons(executors: seq<Executor>, rest: seq<Executor>)
    requires executors != [] && DistinctExecutors(executors) && DistinctExecutors(rest)
    requires forall x :: x in rest ==> x in executors[1..]
    ensures DistinctExecutors([executors[0]] + rest)
  {
    forall j | 0 <= j < |rest| ensures executors[0].id != rest[j].id {
      assert rest[j] in executors[1..];
      var k :| 0 <= k < |executors[1..]| && executors[1..][k] == rest[j];
      assert executors[k + 1] == rest[j];
    }
  }

  lemma IdsOfCons(executor: Executor, rest: seq<Executor>)
    ensures IdsOf([executor] + rest) == [executor.id] + IdsOf(rest)
  {
  }
}
