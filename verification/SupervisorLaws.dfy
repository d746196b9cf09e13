/** What the consecutive-failure supervisor does over any sequence of finished executors. */
module SupervisorLaws {
  import opened SessionRun
  import opened CoroutinePool

  /** The length of the run of failures that ends the first `n` statuses. */
  function Trailing(statuses: seq<JobStatus>, n: nat): nat
    requires n <= |statuses|
    decreases n
  {
    if n == 0 || statuses[n - 1] == SUCCESS then 0 else Trailing(statuses, n - 1) + 1
  }

  /** One alert, with the limit as its argument, each time a run of failures grows to the limit. */
  function AlertsDue(limit: nat, statuses: seq<JobStatus>, n: nat): seq<nat>
    requires n <= |statuses|
    decreases n
  {
    if n == 0 then []
    else AlertsDue(limit, statuses, n - 1)
         + if statuses[n - 1] != SUCCESS && Trailing(statuses, n) == limit then [limit] else []
  }

  /** The counters tell the trailing run, and every alert due was given. */
  ghost predicate Vigilant(sup: Supervisor, p: PoolState) {
    var n := |p.observed|;
    && p.consecutiveFailures == Trailing(p.observed, n)
    && (p.limitFired <==> Trailing(p.observed, n) >= sup.limit)
    && p.alerts == if sup.listening then AlertsDue(sup.limit, p.observed, n) else []
  }

  lemma {:induction false} TrailingIgnoresLater(statuses: seq<JobStatus>, later: JobStatus, n: nat)
    requires n <= |statuses|
    ensures Trailing(statuses + [later], n) == Trailing(statuses, n)
    decreases n
  {
    if n > 0 {
      TrailingIgnoresLater(statuses, later, n - 1);
    }
  }

  lemma {:induction false} AlertsIgnoreLater(limit: nat, statuses: seq<JobStatus>, later: JobStatus, n: nat)
    requires n <= |statuses|
    ensures AlertsDue(limit, statuses + [later], n) == AlertsDue(limit, statuses, n)
    decreases n
  {
    if n > 0 {
      AlertsIgnoreLater(limit, statuses, later, n - 1);
      TrailingIgnoresLater(statuses, later, n);
      assert (statuses + [later])[n - 1] == statuses[n - 1];
    }
  }

  lemma {:induction false} ObserveVigilant(sup: Supervisor, p: PoolState, status: JobStatus)
    requires sup.limit > 0 && Vigilant(sup, p)
    ensures Vigilant(sup, Observe(sup, p, status))
  {
    var n, all := |p.observed|, p.observed + [status];
    TrailingIgnoresLater(p.observed, status, n);
    AlertsIgnoreLater(sup.limit, p.observed, status, n);
    assert all[n] == status;
    assert Trailing(all, n + 1) == if status == SUCCESS then 0 else p.consecutiveFailures + 1;
    assert AlertsDue(sup.limit, all, n + 1)
           == AlertsDue(sup.limit, p.observed, n)
              + if status != SUCCESS && Trailing(all, n + 1) == sup.limit then [sup.limit] else [];
  }

  lemma {:induction false} LaunchVigilant(sup: Supervisor, p: PoolState, id: nat, fails: bool)
    requires sup.limit > 0 && Vigilant(sup, p)
    ensures Vigilant(sup, Launch(sup, p, id, fails))
  {
    hide Vigilant, Observe;
    VigilantFrame(sup, p, Admit(p, id));
    RetireVigilant(sup, Admit(p, id), id, RUNNING);
    VigilantFrame(sup, p, Launch(sup, p, id, false));
  }

  lemma {:induction false} RetireVigilant(sup: Supervisor, p: PoolState, id: nat, status: JobStatus)
    requires sup.limit > 0 && Vigilant(sup, p)
    ensures Vigilant(sup, Retire(sup, p, id, status))
  {
    hide Vigilant, Observe;
    var q := p.(executors := RemoveFirst(p.executors, id), log := p.log + [Emission(ProcessClosed, id)]);
    VigilantFrame(sup, p, q);
    ObserveVigilant(sup, q, status);
  }

  /** Only the supervisor's own fields matter to it. */
  lemma {:induction false} VigilantFrame(sup: Supervisor, p: PoolState, q: PoolState)
    requires Vigilant(sup, p)
    requires p.observed == q.observed && p.consecutiveFailures == q.consecutiveFailures
    requires p.limitFired == q.limitFired && p.alerts == q.alerts
    ensures Vigilant(sup, q)
  {
  }

  /** The supervisor's state after the first `n` of some executors retired one by one. */
  function ObserveAll(sup: Supervisor, statuses: seq<JobStatus>, n: nat): PoolState
    requires n <= |statuses|
    decreases n
  {
    if n == 0 then Fresh else Observe(sup, ObserveAll(sup, statuses, n - 1), statuses[n - 1])
  }

  /**
  Over any sequence of finished executors: the failure count is the length of the trailing run of
  failures, the fired flag says whether that run has reached the limit, and the callback was called
  exactly once for each run that reached it, with the limit.
  */
  lemma {:induction false} SupervisorExact(sup: Supervisor, statuses: seq<JobStatus>, n: nat)
    requires sup.limit > 0 && n <= |statuses|
    ensures var p := ObserveAll(sup, statuses, n);
            && p.observed == statuses[..n]
            && p.consecutiveFailures == Trailing(statuses, n)
            && (p.limitFired <==> Trailing(statuses, n) >= sup.limit)
            && p.alerts == if sup.listening then AlertsDue(sup.limit, statuses, n) else []
    decreases n
  {
    if n > 0 {
      SupervisorExact(sup, statuses, n - 1);
    }
  }

  /** A healthy executor after every failing run is all it takes: no alert comes twice in a row of failures. */
  lemma {:induction false} OneAlertPerRun(limit: nat, statuses: seq<JobStatus>, m: nat, n: nat)
    requires 0 < limit && m <= n <= |statuses|
    requires forall i :: m <= i < n ==> statuses[i] != SUCCESS
    ensures |AlertsDue(limit, statuses, m)| <= |AlertsDue(limit, statuses, n)| <= |AlertsDue(limit, statuses, m)| + 1
    ensures Trailing(statuses, n) == Trailing(statuses, m) + (n - m)
    ensures |AlertsDue(limit, statuses, n)| == |AlertsDue(limit, statuses, m)| + 1
            <==> Trailing(statuses, m) < limit <= Trailing(statuses, n)
    decreases n
  {
    if m < n {
      OneAlertPerRun(limit, statuses, m, n - 1);
    }
  }
}
