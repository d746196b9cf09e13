/**
Whose breaker governs a dispatch. Admission asks under the dispatched tenant
(src/openrtc/routing/request_filter.py, lines 256 to 268), outcomes are counted under the session's
(src/openrtc/core/wiring.py, line 155), which is the same without surrounding whitespace.
*/
module BreakerKeyLaws {
  import opened Wrappers
  import opened Text
  import opened Routing
  import opened RequestFilter
  import opened SessionRun
  import opened SessionLaws
  import opened CoroutinePool
  import opened Worker
  import opened WorkerLaws
  import opened GaugeLaws
  import opened Scenarios
  import opened TenantCapLaws
  import opened BreakerLaws
  import CircuitBreaker

  /** In every run the circuit layer rejects the dispatch exactly while the breaker its tenant's sessions opened is open. */
  ghost predicate CircuitGoverns(w: World, ctx: Context, tenant: string) {
    forall events, n: nat :: n <= |events| ==>
      (ReadingsOf(After(w, events, n)).rejects(RequestTenant(w.parse, ctx.job))
       <==> OpenFor(w, events, n, tenant))
  }

  /** Less than a cooldown has passed since the tenant's own ended sessions last opened its breaker. */
  ghost predicate OpenFor(w: World, events: seq<Event>, n: nat, tenant: string)
    requires n <= |events|
  {
    var tripped := LastOpening(w, History(w, events, n), tenant);
    tripped.Some? && After(w, events, n).now < tripped.value + w.rule.cooldown
  }

  // ---------------------------------------------------------------------------------------------
  // Failures all at once
  // ---------------------------------------------------------------------------------------------

  function Fails(m: nat): seq<CircuitBreaker.Sample>
    decreases m
  {
    if m == 0 then [] else Fails(m - 1) + [CircuitBreaker.Sample(0.0, false)]
  }

  /** So many failures at one time trip the rule. */
  predicate TripsAtOnce(c: CircuitBreaker.Rule, m: nat) {
    m > 0 && c.trips(Fails(m))
  }

  lemma {:induction false} FailsAre(m: nat)
    ensures |Fails(m)| == m && CircuitBreaker.Sorted(Fails(m)) && CircuitBreaker.Failures(Fails(m)) == m
    ensures forall i :: 0 <= i < m ==> Fails(m)[i] == CircuitBreaker.Sample(0.0, false)
    decreases m
  {
    hide CircuitBreaker.Sorted, CircuitBreaker.Failures;
    if m == 0 {
      NoneFailed();
    } else {
      FailsAre(m - 1);
      CircuitBreaker.SortedAppend(Fails(m - 1), CircuitBreaker.Sample(0.0, false));
      OneMoreFailed(Fails(m - 1), CircuitBreaker.Sample(0.0, false));
    }
  }

  lemma {:induction false} NoneFailed()
    ensures CircuitBreaker.Sorted([]) && CircuitBreaker.Failures([]) == 0
  {
  }

  lemma {:induction false} OneMoreFailed(q: seq<CircuitBreaker.Sample>, x: CircuitBreaker.Sample)
    requires !x.ok
    ensures CircuitBreaker.Failures(q + [x]) == CircuitBreaker.Failures(q) + 1
  {
    assert (q + [x])[..|q|] == q;
  }

  /** A ratio below one trips as soon as there are enough samples, all of them failures. */
  lemma {:induction false} RatioTripsAtOnce(failureRatio: real, minSamples: int, window: CircuitBreaker.Span, cooldown: real,
                                            m: nat)
    requires m > 0
    ensures TripsAtOnce(CircuitBreaker.RatioRule(failureRatio, minSamples, window, cooldown), m)
            <==> failureRatio < 1.0 && m >= minSamples
  {
    hide Fails, CircuitBreaker.Failures, CircuitBreaker.Sorted;
    FailsAre(m);
    assert Fails(m) != [];
    assert m as real / m as real == 1.0;
  }

  /** What the rounds of a failing dispatch come to for the breaker. */
  function RoundCalls(raw: string, tenant: string, k: nat): seq<CircuitBreaker.Call>
    decreases k
  {
    if k == 0 then []
    else RoundCalls(raw, tenant, k - 1) + [CircuitBreaker.Query(raw, 0.0), CircuitBreaker.Outcome(tenant, false, 0.0)]
  }

  lemma {:induction false} TwoMoreCalls(w: World, calls: seq<CircuitBreaker.Call>, a: CircuitBreaker.Call, b: CircuitBreaker.Call,
                                        t: string)
    ensures var before := CircuitBreaker.AccountOf(w.rule, calls, |calls|, t);
            var midway := if a.tenant == t then CircuitBreaker.StepAccount(w.rule, before, a) else before;
            CircuitBreaker.AccountOf(w.rule, calls + [a, b], |calls| + 2, t)
            == if b.tenant == t then CircuitBreaker.StepAccount(w.rule, midway, b) else midway
  {
    hide CircuitBreaker.StepAccount;
    var all := calls + [a, b];
    AccountIgnoresLater(w, calls, [a, b], |calls|, t);
    assert all[|calls|] == a && all[|calls| + 1] == b;
    assert CircuitBreaker.AccountOf(w.rule, all, |calls| + 1, t)
           == if a.tenant == t then CircuitBreaker.StepAccount(w.rule, CircuitBreaker.AccountOf(w.rule, all, |calls|, t), a)
              else CircuitBreaker.AccountOf(w.rule, all, |calls|, t);
  }

  /** After `k` rounds the breaker has opened, or it holds `k` failures of which no beginning trips the rule. */
  lemma {:induction false} RoundAccount(w: World, raw: string, tenant: string, k: nat)
    requires raw != tenant
    ensures var calls := RoundCalls(raw, tenant, k);
            var a := CircuitBreaker.AccountOf(w.rule, calls, |calls|, tenant);
            || a.last == Some(0.0)
            || (a == CircuitBreaker.Account(Fails(k), None, None) && forall j :: 0 < j <= k ==> !TripsAtOnce(w.rule, j))
    decreases k
  {
    hide CircuitBreaker.AccountOf, CircuitBreaker.StepAccount, Fails;
    if k == 0 {
      NothingOpened(w, tenant);
      FailsAre(0);
    } else {
      RoundAccount(w, raw, tenant, k - 1);
      var calls := RoundCalls(raw, tenant, k - 1);
      TwoMoreCalls(w, calls, CircuitBreaker.Query(raw, 0.0), CircuitBreaker.Outcome(tenant, false, 0.0), tenant);
      FailureCounts(w.rule, CircuitBreaker.AccountOf(w.rule, calls, |calls|, tenant), tenant, k);
    }
  }

  /** The failure opens the breaker if it is the one that trips the rule, and an opening is not forgotten. */
  lemma {:induction false} FailureCounts(c: CircuitBreaker.Rule, a: CircuitBreaker.Account, tenant: string, k: nat)
    requires k > 0
    ensures var a' := CircuitBreaker.StepAccount(c, a, CircuitBreaker.Outcome(tenant, false, 0.0));
            && (a.last == Some(0.0) ==> a'.last == Some(0.0))
            && (a == CircuitBreaker.Account(Fails(k - 1), None, None) ==>
                  a' == if TripsAtOnce(c, k) then CircuitBreaker.Account([], Some(0.0), Some(0.0))
                        else CircuitBreaker.Account(Fails(k), None, None))
  {
    hide CircuitBreaker.Window, CircuitBreaker.Sorted, CircuitBreaker.Failures;
    FailsAre(k);
    CircuitBreaker.WindowOfYoung(Fails(k), 0.0 - c.window);
  }

  lemma {:induction false} NothingOpened(w: World, tenant: string)
    ensures CircuitBreaker.AccountOf(w.rule, [], 0, tenant) == CircuitBreaker.Account([], None, None)
  {
  }

  // ---------------------------------------------------------------------------------------------
  // Rounds of a padded dispatch whose sessions fail
  // ---------------------------------------------------------------------------------------------

  /** Offered, accepted, launched, started, and failed in its first await. */
  function Round(ctx: Context, id: nat): seq<Event> {
    ([Offer(id, ctx, Some(Accept)), Answer(id, Accept)] + Serve(id)) + [Task(id, Resume(Ending.Raised("")))]
  }

  function Rounds(ctx: Context, k: nat): seq<Event>
    decreases k
  {
    if k == 0 then [StartPool] else Rounds(ctx, k - 1) + Round(ctx, k - 1)
  }

  /** The calls `n` more events make. */
  function CallsThen(w: World, s: State, more: seq<Event>, n: nat): seq<CircuitBreaker.Call>
    requires n <= |more|
    decreases n
  {
    if n == 0 then [] else CallsThen(w, s, more, n - 1) + CallsOf(w, Then(w, s, more, n - 1), more[n - 1])
  }

  lemma {:induction false} HistoryMore(w: World, events: seq<Event>, more: seq<Event>, n: nat)
    requires n <= |more|
    ensures History(w, events + more, |events| + n)
            == History(w, events, |events|) + CallsThen(w, After(w, events, |events|), more, n)
    decreases n
  {
    hide Turn, CallsOf;
    if n == 0 {
      HistoryIgnoresLater(w, events, more, |events|);
    } else {
      HistoryMore(w, events, more, n - 1);
      AfterMore(w, events, more, n - 1);
      assert (events + more)[|events| + n - 1] == more[n - 1];
    }
  }

  lemma {:induction false} HistoryIgnoresLater(w: World, events: seq<Event>, later: seq<Event>, n: nat)
    requires n <= |events|
    ensures History(w, events + later, n) == History(w, events, n)
    decreases n
  {
    hide Turn, CallsOf;
    if n > 0 {
      HistoryIgnoresLater(w, events, later, n - 1);
      AfterIgnoresLater(w, events, later, n - 1);
      assert (events + later)[n - 1] == events[n - 1];
    }
  }

  ghost predicate Ready(s: State, k: nat) {
    && s.pool.started && !s.pool.draining && s.now == 0.0
    && forall id: nat :: id in s.jobs <==> id < k
  }

  /** The first two events of a round: the dispatch is accepted, and the breaker was asked once. */
  lemma {:induction false} RoundEnters(w: World, s: State, ctx: Context, tenant: string, k: nat)
    requires SessionOf(w, ctx, tenant) && Unobstructed(w, ctx, tenant) && RequestTenant(w.parse, ctx.job) != tenant
    requires Ready(s, k) && !ReadingsOf(s).rejects(RequestTenant(w.parse, ctx.job))
    ensures var enter := [Offer(k, ctx, Some(Accept)), Answer(k, Accept)];
            var t := Then(w, s, enter, 2);
            && t.jobs == s.jobs[k := Waiting(CallOf(w, ctx))] && t.pool == s.pool && t.now == s.now
            && CallsThen(w, s, enter, 2) == [CircuitBreaker.Query(RequestTenant(w.parse, ctx.job), 0.0)]
  {
    hide Verdict, SessionIdentity, RequestTenant, RequestAgentName, Unobstructed, OwnsRoom, PreConnect, CircuitBreaker.Ask;
    var enter := [Offer(k, ctx, Some(Accept)), Answer(k, Accept)];
    PaddedPasses(w, s, ctx, tenant);
    assert k !in s.jobs;
    var a := Then(w, s, enter, 1);
    assert a == Turn(w, s, enter[0]);
    assert CallsThen(w, s, enter, 1) == CallsOf(w, s, enter[0]);
    assert CallsOf(w, a, enter[1]) == [];
    assert Then(w, s, enter, 2) == Turn(w, a, enter[1]);
  }

  lemma {:induction false} StartIsNoOutcome(w: World, s: State, id: nat)
    requires id in s.jobs && s.jobs[id].Waiting? && s.jobs[id].call.session.Some?
    requires s.pool.started && !s.pool.draining
    ensures CallsThen(w, s, Serve(id), 2) == []
  {
    hide Step, Enabled, Feed, Judge;
    var plan := PlanOf(w, s.jobs[id].call, PLAIN);
    var a := Then(w, s, Serve(id), 1);
    assert a == Turn(w, s, LaunchJob(id, PLAIN, false));
    assert a.jobs[id] == Running(s.jobs[id].call, Launched(plan), false);
    SilentStart(plan);
    OneSignal(plan, s.now);
    assert CallsThen(w, s, Serve(id), 1) == [];
  }

  lemma {:induction false} OneSignal(plan: Plan, now: real)
    ensures Outcomes(plan, [SignalStarted], now) == []
  {
  }

  /** The session of a talking call fails: one failed outcome. */
  lemma {:induction false} CallFails(w: World, s: State, id: nat, call: Call)
    requires id in s.jobs && s.jobs[id] == Talking(w, call) && call.session.Some?
    ensures var e := Task(id, Resume(Ending.Raised("")));
            && CallsOf(w, s, e) == [CircuitBreaker.Outcome(call.session.value.tenant, false, s.now)]
            && Turn(w, s, e).pool == s.pool && Turn(w, s, e).now == s.now && Turn(w, s, e).jobs.Keys == s.jobs.Keys
  {
    hide Step, Enabled, Feed, Judge;
    var plan := PlanOf(w, call, PLAIN);
    SilentStart(plan);
    FailedStep(plan);
    FailedNews(plan, s.now);
  }

  lemma {:induction false} FailedStep(plan: Plan)
    requires !plan.deferrable
    ensures var j := SessionRun.Launched(plan).(signals := [SignalStarted], phase := Body(Connect));
            && Enabled(j, Resume(Ending.Raised("")))
            && Step(j, Resume(Ending.Raised(""))).plan == plan
            && News(j, Step(j, Resume(Ending.Raised("")))) == [SignalFailed(""), SignalFinished(Ending.Raised(""))]
  {
  }

  lemma {:induction false} FailedNews(plan: Plan, now: real)
    ensures Outcomes(plan, [SignalFailed(""), SignalFinished(Ending.Raised(""))], now)
            == [CircuitBreaker.Outcome(plan.tenant, false, now)]
  {
    assert [SignalFailed(""), SignalFinished(Ending.Raised(""))][..1] == [SignalFailed("")];
    assert [SignalFailed("")][..0] == [];
  }

  lemma {:induction false} CallsThenConcat(w: World, s: State, a: seq<Event>, b: seq<Event>, n: nat)
    requires n <= |b|
    ensures CallsThen(w, s, a + b, |a| + n) == CallsThen(w, s, a, |a|) + CallsThen(w, Then(w, s, a, |a|), b, n)
    decreases n
  {
    hide Turn, CallsOf;
    if n == 0 {
      CallsThenIgnoresLater(w, s, a, b, |a|);
    } else {
      CallsThenConcat(w, s, a, b, n - 1);
      ThenMore(w, s, a, b, n - 1);
      assert (a + b)[|a| + n - 1] == b[n - 1];
    }
  }

  lemma {:induction false} CallsThenIgnoresLater(w: World, s: State, events: seq<Event>, later: seq<Event>, n: nat)
    requires n <= |events|
    ensures CallsThen(w, s, events + later, n) == CallsThen(w, s, events, n)
    decreases n
  {
    hide Turn, CallsOf;
    if n > 0 {
      CallsThenIgnoresLater(w, s, events, later, n - 1);
      ThenIgnoresLater(w, s, events, later, n - 1);
      assert (events + later)[n - 1] == events[n - 1];
    }
  }

  /** A whole round: one more job is over, and one more failure counted under the tenant. */
  lemma {:induction false} RoundState(w: World, s: State, ctx: Context, tenant: string, k: nat)
    requires SessionOf(w, ctx, tenant) && Unobstructed(w, ctx, tenant) && RequestTenant(w.parse, ctx.job) != tenant
    requires Ready(s, k) && !ReadingsOf(s).rejects(RequestTenant(w.parse, ctx.job))
    ensures Ready(Then(w, s, Round(ctx, k), 5), k + 1)
    ensures CallsThen(w, s, Round(ctx, k), 5)
            == [CircuitBreaker.Query(RequestTenant(w.parse, ctx.job), 0.0), CircuitBreaker.Outcome(tenant, false, 0.0)]
  {
    hide Turn, Verdict, SessionIdentity, RequestTenant, Unobstructed, PreConnect, Talking, CallsOf, Then, CallsThen;
    var enter, serve, fail := [Offer(k, ctx, Some(Accept)), Answer(k, Accept)], Serve(k), [Task(k, Resume(Ending.Raised("")))];
    RoundEnters(w, s, ctx, tenant, k);
    var a := Then(w, s, enter, 2);
    ServeCall(w, a, k);
    StartIsNoOutcome(w, a, k);
    ThenMore(w, s, enter, serve, 2);
    CallsThenConcat(w, s, enter, serve, 2);
    var b := Then(w, a, serve, 2);
    CallFails(w, b, k, CallOf(w, ctx));
    ThenMore(w, s, enter + serve, fail, 1);
    CallsThenConcat(w, s, enter + serve, fail, 1);
    OneEventThen(w, b, fail[0]);
  }

  lemma {:induction false} OneEventThen(w: World, s: State, e: Event)
    ensures Then(w, s, [e], 1) == Turn(w, s, e) && CallsThen(w, s, [e], 1) == CallsOf(w, s, e)
  {
    hide Turn, CallsOf;
    assert Then(w, s, [e], 0) == s;
    assert CallsThen(w, s, [e], 0) == [];
  }

  lemma {:induction false} RoundsState(w: World, ctx: Context, tenant: string, k: nat)
    requires w.options.breaker && SessionOf(w, ctx, tenant) && Unobstructed(w, ctx, tenant) && !Unpadded(w, ctx)
    ensures var events := Rounds(ctx, k);
            && Ready(After(w, events, |events|), k)
            && History(w, events, |events|) == RoundCalls(RequestTenant(w.parse, ctx.job), tenant, k)
    decreases k
  {
    hide Turn, After, SessionIdentity, RequestTenant, Unobstructed, PreConnect, Strip, History, CallsThen, Then, Round, Ready,
         Unpadded, ReadingsOf;
    if k == 0 {
      NoRounds(w);
    } else {
      RoundsState(w, ctx, tenant, k - 1);
      OneMoreRound(w, Rounds(ctx, k - 1), ctx, tenant, k - 1);
    }
  }

  lemma {:induction false} OneMoreRound(w: World, events: seq<Event>, ctx: Context, tenant: string, k: nat)
    requires w.options.breaker && SessionOf(w, ctx, tenant) && Unobstructed(w, ctx, tenant) && !Unpadded(w, ctx)
    requires Ready(After(w, events, |events|), k)
    ensures var more := events + Round(ctx, k);
            && Ready(After(w, more, |more|), k + 1)
            && History(w, more, |more|)
               == History(w, events, |events|)
                  + [CircuitBreaker.Query(RequestTenant(w.parse, ctx.job), 0.0), CircuitBreaker.Outcome(tenant, false, 0.0)]
  {
    hide Turn, After, SessionIdentity, RequestTenant, Unobstructed, PreConnect, Strip, History, CallsThen, Then, Round, Ready;
    KeyIsStripped(w, ctx, tenant);
    PaddedTenantEvades(w, events, |events|, ctx);
    RoundState(w, After(w, events, |events|), ctx, tenant, k);
    FiveEvents(ctx, k);
    AfterMore(w, events, Round(ctx, k), 5);
    HistoryMore(w, events, Round(ctx, k), 5);
  }

  lemma {:induction false} FiveEvents(ctx: Context, id: nat)
    ensures |Round(ctx, id)| == 5
  {
  }

  lemma {:induction false} NoRounds(w: World)
    ensures Ready(After(w, [StartPool], 1), 0) && History(w, [StartPool], 1) == []
  {
    hide OfferNext;
    assert After(w, [StartPool], 1) == Turn(w, Boot, StartPool);
    assert History(w, [StartPool], 1) == History(w, [StartPool], 0) + CallsOf(w, Boot, StartPool);
  }

  /**
  The run that fails: so many rounds of a padded dispatch that its failures trip the rule. The tenant's breaker is
  open then, an unpadded dispatch of the tenant is rejected, and the padded one still passes.
  */
  lemma {:induction false} OpenBreakerIsPassed(w: World, ctx: Context, tenant: string, m: nat)
    requires w.options.breaker && w.rule.cooldown > 0.0 && TripsAtOnce(w.rule, m)
    requires SessionOf(w, ctx, tenant) && Unobstructed(w, ctx, tenant) && !Unpadded(w, ctx)
    ensures var events := Rounds(ctx, m);
            var s := After(w, events, |events|);
            && OpenFor(w, events, |events|, tenant) && ReadingsOf(s).rejects(tenant)
            && !ReadingsOf(s).rejects(RequestTenant(w.parse, ctx.job))
            && (Accepts(w, s, ctx, Some(Accept)) || HandsOver(w, s, ctx))
  {
    hide Turn, After, SessionIdentity, RequestTenant, Unobstructed, PreConnect, Strip, History, Verdict, Rounds, RoundCalls,
         CircuitBreaker.AccountOf, CircuitBreaker.Ask, TripsAtOnce, StateAfter;
    var events := Rounds(ctx, m);
    var s := After(w, events, |events|);
    KeyIsStripped(w, ctx, tenant);
    RoundsState(w, ctx, tenant, m);
    RoundAccount(w, RequestTenant(w.parse, ctx.job), tenant, m);
    SomeRounds(w, m);
    PaddedTenantEvades(w, events, |events|, ctx);
    PaddedPasses(w, s, ctx, tenant);
    BreakerIsRun(w, events, |events|);
    HistoryInTime(w, events, |events|);
    AskedIsAnswered(w, History(w, events, |events|), tenant, s.now);
  }

  lemma {:induction false} SomeRounds(w: World, m: nat)
    requires TripsAtOnce(w.rule, m)
    ensures m > 0
  {
  }

  /**
  Whether a dispatch is governed by the breaker of the tenant its sessions are counted under, exactly: if and only
  if it is not padded, for a rule that some number of failures trips and a cooldown that lasts.
  */
  lemma {:induction false} CircuitGovernsExactly(w: World, ctx: Context, tenant: string, m: nat)
    requires w.options.breaker && w.rule.cooldown > 0.0 && TripsAtOnce(w.rule, m)
    requires SessionOf(w, ctx, tenant) && Unobstructed(w, ctx, tenant)
    ensures CircuitGoverns(w, ctx, tenant) <==> Unpadded(w, ctx)
  {
    hide Turn, After, SessionIdentity, RequestTenant, Unobstructed, PreConnect, Strip, History, Rounds, TripsAtOnce,
         LastOpening, Verdict;
    KeyIsStripped(w, ctx, tenant);
    if Unpadded(w, ctx) {
      forall events, n: nat | n <= |events|
        ensures ReadingsOf(After(w, events, n)).rejects(RequestTenant(w.parse, ctx.job)) <==> OpenFor(w, events, n, tenant)
      {
        CircuitRefusesExactly(w, events, n, ctx, None);
      }
    } else {
      OpenBreakerIsPassed(w, ctx, tenant, m);
    }
  }

  // ---------------------------------------------------------------------------------------------
  // The rule the code uses
  // ---------------------------------------------------------------------------------------------

  lemma {:induction false} FailuresAtMostAll(q: seq<CircuitBreaker.Sample>)
    ensures CircuitBreaker.Failures(q) <= |q|
    decreases |q|
  {
    if q != [] {
      FailuresAtMostAll(q[..|q| - 1]);
    }
  }

  lemma {:induction false} NoMoreThanAll(part: nat, whole: nat)
    requires part <= whole && whole > 0
    ensures part as real / whole as real <= 1.0
  {
  }

  /** A breaker that cannot trip, or opens for no time, is never open. */
  lemma {:induction false} NeverOpen(w: World, calls: seq<CircuitBreaker.Call>, t: string, now: real)
    requires InTime(calls, now)
    requires w.rule.cooldown <= 0.0 || forall q :: !w.rule.trips(q)
    ensures var tripped := LastOpening(w, calls, t); !(tripped.Some? && now < tripped.value + w.rule.cooldown)
  {
    OpenedBefore(w, calls, |calls|, t, now);
  }

  lemma {:induction false} OpenedBefore(w: World, calls: seq<CircuitBreaker.Call>, n: nat, t: string, now: real)
    requires n <= |calls| && InTime(calls, now)
    ensures var a := CircuitBreaker.AccountOf(w.rule, calls, n, t);
            a.last.Some? ==> a.last.value <= now && exists q :: w.rule.trips(q)
    decreases n
  {
    hide CircuitBreaker.Window;
    if n > 0 {
      OpenedBefore(w, calls, n - 1, t, now);
    }
  }

  /**
  The same for the rule the breaker has, a share of failures above a ratio once there are enough samples: a dispatch
  is governed by its tenant's breaker if and only if it is not padded, or that breaker can never be open at all.
  */
  lemma {:induction false} RatioGovernsExactly(w: World, ctx: Context, tenant: string, failureRatio: real, minSamples: int)
    requires w.options.breaker && SessionOf(w, ctx, tenant) && Unobstructed(w, ctx, tenant)
    requires w.rule == CircuitBreaker.RatioRule(failureRatio, minSamples, w.rule.window, w.rule.cooldown)
    ensures CircuitGoverns(w, ctx, tenant) <==> Unpadded(w, ctx) || failureRatio >= 1.0 || w.rule.cooldown <= 0.0
  {
    hide Turn, After, SessionIdentity, RequestTenant, Unobstructed, PreConnect, Strip, History, LastOpening, Verdict,
         TripsAtOnce, CircuitBreaker.Failures, Fails, Unpadded;
    if failureRatio >= 1.0 || w.rule.cooldown <= 0.0 {
      forall q ensures failureRatio >= 1.0 ==> !w.rule.trips(q) {
        FailuresAtMostAll(q);
        if q != [] {
          NoMoreThanAll(CircuitBreaker.Failures(q), |q|);
        }
      }
      forall events, n: nat | n <= |events|
        ensures !ReadingsOf(After(w, events, n)).rejects(RequestTenant(w.parse, ctx.job)) && !OpenFor(w, events, n, tenant)
      {
        CircuitRefusesExactly(w, events, n, ctx, None);
        HistoryInTime(w, events, n);
        NeverOpen(w, History(w, events, n), tenant, After(w, events, n).now);
        NeverOpen(w, History(w, events, n), RequestTenant(w.parse, ctx.job), After(w, events, n).now);
      }
    } else {
      var m := if minSamples > 0 then minSamples else 1;
      RatioTripsAtOnce(failureRatio, minSamples, w.rule.window, w.rule.cooldown, m);
      CircuitGovernsExactly(w, ctx, tenant, m);
    }
  }
}
