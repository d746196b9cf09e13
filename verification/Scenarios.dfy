/** Runs put together from shorter ones, for the theorems that exhibit a run. */
module Scenarios {
  import opened Wrappers
  import opened Routing
  import opened RequestFilter
  import opened SessionRun
  import opened SessionLaws
  import opened CoroutinePool
  import opened Worker
  import opened GaugeLaws
  import CircuitBreaker

  /** The worker after `n` more events. */
  function Then(w: World, s: State, events: seq<Event>, n: nat): State
    requires n <= |events|
    decreases n
  {
    if n == 0 then s else Turn(w, Then(w, s, events, n - 1), events[n - 1])
  }

  lemma {:induction false} AfterIgnoresLater(w: World, events: seq<Event>, later: seq<Event>, n: nat)
    requires n <= |events|
    ensures After(w, events + later, n) == After(w, events, n)
    decreases n
  {
    hide Turn;
    if n > 0 {
      AfterIgnoresLater(w, events, later, n - 1);
      assert (events + later)[n - 1] == events[n - 1];
    }
  }

  lemma {:induction false} AfterMore(w: World, events: seq<Event>, more: seq<Event>, n: nat)
    requires n <= |more|
    ensures After(w, events + more, |events| + n) == Then(w, After(w, events, |events|), more, n)
    decreases n
  {
    hide Turn;
    if n == 0 {
      AfterIgnoresLater(w, events, more, |events|);
    } else {
      AfterMore(w, events, more, n - 1);
      assert (events + more)[|events| + n - 1] == more[n - 1];
    }
  }

  /** Continuing a continuation. */
  lemma {:induction false} ThenMore(w: World, s: State, a: seq<Event>, b: seq<Event>, n: nat)
    requires n <= |b|
    ensures Then(w, s, a + b, |a| + n) == Then(w, Then(w, s, a, |a|), b, n)
    decreases n
  {
    hide Turn;
    if n == 0 {
      ThenIgnoresLater(w, s, a, b, |a|);
    } else {
      ThenMore(w, s, a, b, n - 1);
      assert (a + b)[|a| + n - 1] == b[n - 1];
    }
  }

  lemma {:induction false} ThenIgnoresLater(w: World, s: State, events: seq<Event>, later: seq<Event>, n: nat)
    requires n <= |events|
    ensures Then(w, s, events + later, n) == Then(w, s, events, n)
    decreases n
  {
    hide Turn;
    if n > 0 {
      ThenIgnoresLater(w, s, events, later, n - 1);
      assert (events + later)[n - 1] == events[n - 1];
    }
  }

  const PLAIN := Shape(false, false, false, false)

  /** A call whose session has just started. */
  function Talking(w: World, call: Call): Entry {
    Running(call, Step(Launched(PlanOf(w, call, PLAIN)), FirstStep(Returned, Returned)), false)
  }

  function Serve(id: nat): seq<Event> {
    [LaunchJob(id, PLAIN, false), Task(id, FirstStep(Returned, Returned))]
  }

  lemma {:induction false} SilentStart(plan: Plan)
    ensures Enabled(Launched(plan), FirstStep(Returned, Returned))
    ensures Step(Launched(plan), FirstStep(Returned, Returned))
            == Launched(plan).(signals := [SignalStarted], phase := Body(Connect))
  {
  }

  lemma {:induction false} TalkingIsLive(w: World, call: Call, r: Resource)
    requires call.session.Some?
    requires match r case OfAgent(agent) => call.session.value.agent == agent
                     case OfTenant(tenant) => call.session.value.tenant == tenant
    ensures In(LiveUsing(r), Talking(w, call)) && !In(Accepted(r), Talking(w, call)) && !In(WaitingFor(r), Talking(w, call))
  {
  }

  lemma {:induction false} NothingToJudge(c: CircuitBreaker.Rule, b: CircuitBreaker.State, plan: Plan, now: real)
    ensures Judge(c, b, plan, [SignalStarted], now) == b
  {
  }

  /** An accepted call is launched and started. */
  lemma {:induction false} ServeCall(w: World, s: State, id: nat)
    requires id in s.jobs && s.jobs[id].Waiting? && s.jobs[id].call.session.Some?
    requires s.pool.started && !s.pool.draining
    ensures var t := Then(w, s, Serve(id), 2);
            && t.jobs == s.jobs[id := Talking(w, s.jobs[id].call)]
            && t.pool.started && !t.pool.draining && t.breaker == s.breaker && t.now == s.now
    ensures var t := Then(w, s, Serve(id), 1); t.jobs.Keys == s.jobs.Keys
  {
    hide Step, Enabled, Feed, Judge;
    var call := s.jobs[id].call;
    var plan := PlanOf(w, call, PLAIN);
    var a := Then(w, s, Serve(id), 1);
    assert a == Turn(w, s, LaunchJob(id, PLAIN, false));
    assert a.jobs == s.jobs[id := Running(call, Launched(plan), false)];
    SilentStart(plan);
    NothingToJudge(w.rule, s.breaker, plan, s.now);
    var t := Then(w, s, Serve(id), 2);
    assert t == Turn(w, a, Task(id, FirstStep(Returned, Returned)));
    assert t.jobs == a.jobs[id := Talking(w, call)];
  }

  /** The first ids. */
  function Below(m: nat): set<nat>
    decreases m
  {
    if m == 0 then {} else Below(m - 1) + {m - 1}
  }

  lemma {:induction false} BelowMeans(m: nat)
    ensures |Below(m)| == m && forall id: nat :: id in Below(m) <==> id < m
    decreases m
  {
    if m > 0 {
      BelowMeans(m - 1);
    }
  }
}
