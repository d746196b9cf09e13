/**
The executor object itself (src/openrtc/runtime/coroutine_runtime.py, lines 119 to 368), with the parts
of `run_session` it runs. Each method is the code between two awaits; it takes the step `SessionRun`
describes and makes the store's and the breaker's calls that go with it.
*/
module CoroutineJobExecutor {
  import opened Wrappers
  import opened Metrics
  import opened CircuitBreaker
  import opened SessionRun

  class Executor {
    const id: nat
    const plan: Plan
    const metrics: RuntimeMetricsStore
    const breaker: TenantCircuitBreaker?
    var phase: Phase
    var status: JobStatus
    var primarySession: bool
    var shutdownDone: bool
    var sessionFinish: Option<Ending>
    var closing: bool
    var cancelRequested: bool
    var started: bool
    var signals: seq<Signal>

    constructor (id: nat, plan: Plan, metrics: RuntimeMetricsStore, breaker: TenantCircuitBreaker?)
      ensures this.id == id && this.plan == plan && this.metrics == metrics && this.breaker == breaker
      ensures Model() == Launched(plan) && !started
    {
      this.id, this.plan, this.metrics, this.breaker := id, plan, metrics, breaker;
      phase, status := Scheduled, RUNNING;
      primarySession, shutdownDone, sessionFinish := false, false, None;
      closing, cancelRequested, started := false, false, false;
      signals := [];
    }

    ghost function Model(): Job
      reads this
    {
      Job(plan, phase, status, primarySession, shutdownDone, sessionFinish, closing, cancelRequested, signals)
    }

    /** The session reported `news`, to the metrics store and to the breaker if there is one. */
    twostate predicate Reports(news: seq<Signal>, now: real)
      reads this, metrics, breaker
    {
      && signals == old(signals) + news
      && metrics.Model() == Feed(old(metrics.Model()), plan, news)
      && (breaker != null ==> breaker.Model() == Judge(breaker.TheRule(), old(breaker.Model()), plan, news, now))
    }

    /** Whatever the session reported since then went to the store and to the breaker. */
    twostate predicate ReportsNews(now: real)
      reads this, metrics, breaker
    {
      |old(signals)| <= |signals| && Reports(signals[|old(signals)|..], now)
    }

    /** The synchronous part of `_finish_session`. */
    method FinishSession(how: Ending, now: real)
      modifies this`signals, metrics, breaker
      ensures Reports([SignalFinished(how)], now)
    {
      FeedOne(metrics.Model(), plan, [], SignalFinished(how));
      assert [] + [SignalFinished(how)] == [SignalFinished(how)];
      signals := signals + [SignalFinished(how)];
      metrics.RecordSessionFinished(plan.agent, plan.tenant);
      if breaker != null {
        JudgeOne(breaker.TheRule(), breaker.Model(), plan, [], SignalFinished(how), now);
        breaker.RecordOutcome(plan.tenant, how.Returned?, now);
      }
    }

    /** `run_session_end`: fires the deferred end once. */
    method RunSessionEnd(now: real)
      modifies this`signals, this`sessionFinish, metrics, breaker
      ensures Model() == FireDeferredEnd(old(Model()))
      ensures ReportsNews(now)
    {
      if sessionFinish.None? {
        assert signals[|signals|..] == [];
        return;
      }
      var finish := sessionFinish.value;
      sessionFinish := None;
      FinishSession(finish, now);
      assert signals[|old(signals)|..] == [SignalFinished(finish)];
    }

    method RunFinally(how: Ending, now: real)
      modifies this`signals, this`sessionFinish, this`phase, metrics, breaker
      ensures Model() == EnterFinally(old(Model()), how)
      ensures ReportsNews(now)
    {
      if plan.endHook {
        RunSessionEnd(now);
        phase := EndHook(how);
      } else {
        assert signals[|signals|..] == [];
        phase := Done(how);
      }
    }

    /** What `_run_entrypoint` does when the entrypoint comes back. */
    method EntrypointReturned(how: Ending, now: real)
      modifies this`signals, this`sessionFinish, this`phase, this`status, metrics, breaker
      ensures Model() == EntrypointEnded(old(Model()), how)
      ensures ReportsNews(now)
    {
      match how {
        case Cancelled =>
          if status == RUNNING {
            status := FAILED;
          }
          RunFinally(Cancelled, now);
        case Raised(_) =>
          if status == RUNNING {
            status := FAILED;
          }
          RunFinally(Returned, now);
        case Returned =>
          if primarySession && !plan.fake {
            phase := HeldOpen;
            assert signals[|signals|..] == [];
          } else {
            if status == RUNNING {
              status := SUCCESS;
            }
            RunFinally(Returned, now);
          }
      }
    }

    /** The `finally` of `run_session`. */
    method RunSessionFinally(error: Ending, now: real)
      modifies this`signals, this`sessionFinish, this`phase, this`status, metrics, breaker
      ensures Model() == LeaveRunSession(old(Model()), error)
      ensures ReportsNews(now)
    {
      if plan.deferrable && primarySession && !plan.fake {
        sessionFinish := Some(error);
        EntrypointReturned(error, now);
      } else {
        FinishSession(error, now);
        phase := InlineEnd(error);
        assert signals[|old(signals)|..] == [SignalFinished(error)];
      }
    }

    /** The `except` clause of `run_session`. */
    method RecordFailure(error: string, now: real)
      modifies this`signals, metrics
      ensures Reports([SignalFailed(error)], now)
    {
      FeedOne(metrics.Model(), plan, [], SignalFailed(error));
      assert [] + [SignalFailed(error)] == [SignalFailed(error)];
      if breaker != null {
        JudgeOne(breaker.TheRule(), breaker.Model(), plan, [], SignalFailed(error), now);
      }
      metrics.RecordSessionFailure(plan.agent, error, plan.tenant);
      signals := signals + [SignalFailed(error)];
    }

    method BodyRaises(error: string, now: real)
      modifies this`signals, this`sessionFinish, this`phase, this`status, metrics, breaker
      ensures Model() == LeaveRunSession(old(Model()).(signals := old(signals) + [SignalFailed(error)]), Raised(error))
      ensures ReportsNews(now)
    {
      hide Feed, Judge, LeaveRunSession;
      ghost var m, b := metrics.Model(), if breaker != null then breaker.Model() else CircuitBreaker.Initial;
      RecordFailure(error, now);
      ghost var failed := signals;
      RunSessionFinally(Raised(error), now);
      ghost var news := signals[|failed|..];
      FeedAppend(m, plan, [SignalFailed(error)], news);
      if breaker != null {
        JudgeAppend(breaker.TheRule(), b, plan, [SignalFailed(error)], news, now);
      }
      assert signals[|old(signals)|..] == [SignalFailed(error)] + news;
    }

    /** An await of the session body resumes. */
    method BodyResumes(how: Ending, now: real)
      requires phase.Body?
      modifies this`signals, this`sessionFinish, this`phase, this`status, metrics, breaker
      ensures Model() == BodyResumed(old(Model()), old(phase.stage), how)
      ensures ReportsNews(now)
    {
      hide LeaveRunSession;
      match how {
        case Returned =>
          var next := NextStage(plan, phase.stage);
          if next.Some? {
            phase := Body(next.value);
            assert signals[|signals|..] == [];
          } else {
            RunSessionFinally(Returned, now);
          }
        case Raised(error) =>
          BodyRaises(error, now);
        case Cancelled =>
          RunSessionFinally(Cancelled, now);
      }
    }

    /** The task's first step: bind the context, resolve and build the session, record its start. */
    method StartTask(setup: Ending, build: Ending, now: real)
      requires Enabled(Model(), FirstStep(setup, build))
      modifies this`signals, this`sessionFinish, this`phase, this`status, metrics, breaker
      ensures Model() == Step(old(Model()), FirstStep(setup, build))
      ensures ReportsNews(now)
    {
      if setup.Raised? {
        phase := Done(setup);
        assert signals[|signals|..] == [];
      } else if build.Raised? {
        EntrypointReturned(build, now);
      } else {
        FeedOne(metrics.Model(), plan, [], SignalStarted);
        assert [] + [SignalStarted] == [SignalStarted];
        if breaker != null {
          JudgeOne(breaker.TheRule(), breaker.Model(), plan, [], SignalStarted, now);
        }
        metrics.RecordSessionStarted(plan.agent, plan.tenant);
        signals := signals + [SignalStarted];
        phase := Body(Connect);
        assert signals[|old(signals)|..] == [SignalStarted];
      }
    }

    /** Any later step of the task. */
    method ResumeTask(how: Ending, now: real)
      requires Enabled(Model(), Resume(how))
      modifies this`signals, this`sessionFinish, this`phase, this`status, this`cancelRequested, metrics, breaker
      ensures Model() == Step(old(Model()), Resume(how))
      ensures ReportsNews(now)
    {
      hide BodyResumed, EntrypointEnded, EnterFinally;
      cancelRequested := false;
      assert signals[|signals|..] == [];
      match phase {
        case Scheduled =>
          phase := Done(Cancelled);
        case Body(_) =>
          BodyResumes(how, now);
        case InlineEnd(ends) =>
          EntrypointReturned(if how.Cancelled? then Cancelled else ends, now);
        case HeldOpen =>
          if how.Returned? {
            phase := TearingDown;
          } else {
            if status == RUNNING {
              status := FAILED;
            }
            RunFinally(Cancelled, now);
          }
        case TearingDown =>
          if how.Returned? {
            if status == RUNNING {
              status := SUCCESS;
            }
            RunFinally(Returned, now);
          } else {
            RunFinally(Cancelled, now);
          }
        case EndHook(ends) =>
          phase := Done(if how.Cancelled? then Cancelled else ends);
      }
    }

    /** `ctx.shutdown()` or the room's disconnected event; the future is set once. */
    method RequestShutdown()
      requires Enabled(Model(), ShutdownRequested)
      modifies this`shutdownDone
      ensures Model() == Step(old(Model()), ShutdownRequested)
    {
      if !shutdownDone {
        shutdownDone := true;
      }
    }

    /** A no-op but for the flag: there is no process to spawn. */
    method Start()
      modifies this`started
      ensures started && Model() == old(Model())
    {
      started := true;
    }

    /** Cancels the task without waiting for it. */
    method KillTask()
      modifies this`status, this`cancelRequested, this`started
      ensures Model() == Step(old(Model()), Kill) && !started
    {
      started := false;
      if !phase.Done? {
        cancelRequested := true;
        if status == RUNNING {
          status := FAILED;
        }
      }
    }

    /** `aclose` up to its await of the cancelled task. */
    method AcloseCancel()
      modifies this`closing, this`cancelRequested, this`started
      ensures Model() == Step(old(Model()), AcloseStart)
      ensures started == (old(started) && !old(phase.Done?))
    {
      if phase.Done? {
        started := false;
        return;
      }
      cancelRequested := true;
      closing := true;
    }

    /** `aclose` once the task it awaited is done. */
    method AcloseFinish()
      requires Enabled(Model(), AcloseEnd)
      modifies this`status, this`closing, this`started
      ensures Model() == Step(old(Model()), AcloseEnd) && !started
    {
      started := false;
      if status == RUNNING {
        status := FAILED;
      }
      closing := false;
    }
  }

  lemma {:induction false} FeedAppend(s: Metrics.State, plan: Plan, a: seq<Signal>, b: seq<Signal>)
    ensures Feed(s, plan, a + b) == Feed(Feed(s, plan, a), plan, b)
    decreases |b|
  {
    hide Metrics.Record;
    if b == [] {
      assert a + b == a;
    } else {
      assert a + b == (a + b[..|b| - 1]) + [b[|b| - 1]];
      FeedAppend(s, plan, a, b[..|b| - 1]);
      FeedOne(s, plan, a + b[..|b| - 1], b[|b| - 1]);
    }
  }

  lemma {:induction false} JudgeAppend(c: Rule, s: CircuitBreaker.State, plan: Plan,
                                       a: seq<Signal>, b: seq<Signal>, now: real)
    ensures Judge(c, s, plan, a + b, now) == Judge(c, Judge(c, s, plan, a, now), plan, b, now)
    decreases |b|
  {
    hide CircuitBreaker.Record;
    if b == [] {
      assert a + b == a;
    } else {
      assert a + b == (a + b[..|b| - 1]) + [b[|b| - 1]];
      JudgeAppend(c, s, plan, a, b[..|b| - 1], now);
      JudgeOne(c, s, plan, a + b[..|b| - 1], b[|b| - 1], now);
    }
  }
}
