/**
What a user's own request filter that suspends does to the soft caps (src/openrtc/routing/request_filter.py,
lines 136 to 155): the cap is checked before the filter is awaited, and not again when it accepts.
*/
module SuspendedFilterLaws {
  import opened Wrappers
  import opened Routing
  import opened RequestFilter
  import opened SessionRun
  import opened SessionLaws
  import opened CoroutinePool
  import opened Worker
  import opened WorkerLaws
  import opened GaugeLaws
  import opened SoftCapLaws
  import opened Scenarios
  import CircuitBreaker
  import Metrics

  /** A job of the resource becomes an accepted one. */
  predicate Admits(w: World, s: State, e: Event, r: Resource) {
    && Happens(w, s, e)
    && match e
       case Offer(id, ctx, reply) => Accepts(w, s, ctx, reply) && FiledUnder(CallOf(w, ctx), r)
       case Answer(id, reply) => reply.Accept? && FiledUnder(s.jobs[id].call, r)
       case _ => false
  }

  /** Whenever a job of the resource is accepted, at most `k` accepted ones are still waiting to start. */
  ghost predicate FewAccepted(w: World, events: seq<Event>, r: Resource, k: nat) {
    forall i :: 0 <= i < |events| && Admits(w, After(w, events, i), events[i], r) ==>
      Count(After(w, events, i).jobs, Accepted(r)) <= k
  }

  /** The agent's cap is overshot by no more than the accepted jobs that wait to start. */
  ghost predicate BoundByAccepted(w: World, agent: string)
    requires CapOf(w.options, OfAgent(agent)).Some?
  {
    forall events, n: nat, k: nat :: n <= |events| && FewAccepted(w, events, OfAgent(agent), k) ==>
      Count(After(w, events, n).jobs, LiveUsing(OfAgent(agent))) + Count(After(w, events, n).jobs, Accepted(OfAgent(agent)))
      <= CapOf(w.options, OfAgent(agent)).value + k
  }

  // ---------------------------------------------------------------------------------------------
  // Where no filter suspends nothing ever waits for one
  // ---------------------------------------------------------------------------------------------

  predicate NoneDeciding(jobs: map<nat, Entry>) {
    forall id :: id in jobs ==> !jobs[id].Deciding?
  }

  lemma {:induction false} TurnKeepsNoneDeciding(w: World, s: State, e: Event)
    requires !MaySuspend(w.options) && NoneDeciding(s.jobs)
    ensures NoneDeciding(Turn(w, s, e).jobs)
  {
    hide Step, CallOf, Feed, Judge, Launch, Retire, Verdict, Enabled, Buildable, PreConnect, PlanOf, AllDone;
  }

  lemma {:induction false} NobodyDecides(w: World, events: seq<Event>, n: nat)
    requires !MaySuspend(w.options) && n <= |events|
    ensures NoneDeciding(After(w, events, n).jobs)
    decreases n
  {
    hide Turn;
    if n > 0 {
      NobodyDecides(w, events, n - 1);
      TurnKeepsNoneDeciding(w, After(w, events, n - 1), events[n - 1]);
    }
  }

  lemma {:induction false} WaitingIsAccepted(jobs: map<nat, Entry>, r: Resource)
    requires NoneDeciding(jobs)
    ensures Count(jobs, WaitingFor(r)) == Count(jobs, Accepted(r))
  {
    hide FiledUnder, Starts;
    assert Members(jobs, WaitingFor(r)) == Members(jobs, Accepted(r));
  }

  lemma {:induction false} AcceptedAtOnce(w: World, events: seq<Event>, r: Resource, k: nat)
    requires !MaySuspend(w.options) && FewAccepted(w, events, r, k)
    ensures FewWaiting(w, events, r, k)
  {
    hide Turn, Verdict, FiledUnder, CallOf, Count, PreConnect;
    forall i | 0 <= i < |events| && Raises(w, After(w, events, i), events[i], r)
      ensures Count(After(w, events, i).jobs, WaitingFor(r)) <= k
    {
      var s := After(w, events, i);
      assert Admits(w, s, events[i], r);
      NobodyDecides(w, events, i);
      WaitingIsAccepted(s.jobs, r);
    }
  }

  // ---------------------------------------------------------------------------------------------
  // Where one may, a burst passes the cap together
  // ---------------------------------------------------------------------------------------------

  /** A dispatch for the agent; caps on its tenant are positive, as the constructor makes sure. */
  predicate ForAgent(w: World, ctx: Context, agent: string) {
    && PreConnect(ctx) && SessionIdentity(w, ctx).Some? && SessionIdentity(w, ctx).value.agent == agent
    && (w.options.tenantCaps.Some? ==>
          forall t :: t in w.options.tenantCaps.value ==> w.options.tenantCaps.value[t] > 0)
  }

  /** `n` requests reach the filter before it replies to any; then they are accepted and started one by one. */
  function Burst(ctx: Context, n: nat): seq<Event>
    decreases n
  {
    if n == 0 then [StartPool] else Burst(ctx, n - 1) + [Offer(n - 1, ctx, None)]
  }

  function Release(ctx: Context, n: nat, m: nat): seq<Event>
    requires m <= n
    decreases m
  {
    if m == 0 then Burst(ctx, n) else Release(ctx, n, m - 1) + ([Answer(m - 1, Accept)] + Serve(m - 1))
  }

  /** Calls below `m` talk, those from there to `n` wait for the filter. */
  ghost predicate Released(w: World, s: State, ctx: Context, n: nat, m: nat) {
    && s.pool.started && !s.pool.draining
    && (forall id: nat :: id in s.jobs <==> id < n)
    && forall id :: id in s.jobs ==> s.jobs[id] == if id < m then Talking(w, CallOf(w, ctx)) else Deciding(CallOf(w, ctx))
  }

  /** Nothing has started yet: every gauge is empty and every breaker closed. */
  predicate Quiet(s: State) {
    s.metrics.counters.byAgent == map[] && s.metrics.counters.byTenant == map[] && s.breaker == CircuitBreaker.Initial
  }

  lemma {:induction false} BurstPasses(w: World, s: State, ctx: Context, agent: string)
    requires MaySuspend(w.options) && ForAgent(w, ctx, agent) && Quiet(s)
    requires CapOf(w.options, OfAgent(agent)).Some? && CapOf(w.options, OfAgent(agent)).value > 0
    ensures HandsOver(w, s, ctx) && !Accepts(w, s, ctx, None)
  {
    hide RequestAgentName, RequestTenant, ResolveAgent, OwnsRoom;
    AdmissionAgreesWithRouting(w.parse, w.agents, ctx, None);
    assert LayersPass(Asked(w.options, None), w.parse, w.agents, ReadingsOf(s), ctx.job);
    StackDecides(Asked(w.options, None), w.parse, w.agents, ReadingsOf(s), ctx.job);
  }

  lemma {:induction false} BurstState(w: World, ctx: Context, agent: string, n: nat)
    requires MaySuspend(w.options) && ForAgent(w, ctx, agent)
    requires CapOf(w.options, OfAgent(agent)).Some? && CapOf(w.options, OfAgent(agent)).value > 0
    ensures var s := After(w, Burst(ctx, n), |Burst(ctx, n)|);
            Released(w, s, ctx, n, 0) && Quiet(s)
    decreases n
  {
    hide ForAgent, CapOf, Verdict, CallOf, Talking, After, Burst;
    BurstUnrolled(w, ctx, n);
    if n > 0 {
      BurstState(w, ctx, agent, n - 1);
      var events := Burst(ctx, n - 1);
      var s := After(w, events, |events|);
      BurstPasses(w, s, ctx, agent);
      CanBeOffered(w, ctx, agent);
      var t := Turn(w, s, Offer(n - 1, ctx, None));
      assert n - 1 !in s.jobs;
      assert t.jobs == s.jobs[n - 1 := Deciding(CallOf(w, ctx))] && t.pool == s.pool;
    }
  }

  lemma {:induction false} BurstUnrolled(w: World, ctx: Context, n: nat)
    ensures var t := After(w, Burst(ctx, n), |Burst(ctx, n)|);
            if n == 0 then t == Boot.(pool := Boot.pool.(started := true))
            else t == Turn(w, After(w, Burst(ctx, n - 1), |Burst(ctx, n - 1)|), Offer(n - 1, ctx, None))
  {
    hide OfferNext, Happens;
    if n == 0 {
      assert After(w, [StartPool], 1) == Turn(w, Boot, StartPool);
      StartIsPossible(w);
    } else {
      var events := Burst(ctx, n - 1);
      var s := After(w, events, |events|);
      AfterMore(w, events, [Offer(n - 1, ctx, None)], 1);
      assert Then(w, s, [Offer(n - 1, ctx, None)], 0) == s;
    }
  }

  lemma {:induction false} StartIsPossible(w: World)
    ensures Happens(w, Boot, StartPool)
  {
  }

  lemma {:induction false} CanBeOffered(w: World, ctx: Context, agent: string)
    requires ForAgent(w, ctx, agent)
    ensures PreConnect(ctx) && CallOf(w, ctx).session.Some? && CallOf(w, ctx).session.value.agent == agent
  {
  }

  lemma {:induction false} ReleaseState(w: World, ctx: Context, agent: string, n: nat, m: nat)
    requires m <= n && MaySuspend(w.options) && ForAgent(w, ctx, agent)
    requires CapOf(w.options, OfAgent(agent)).Some? && CapOf(w.options, OfAgent(agent)).value > 0
    ensures Released(w, After(w, Release(ctx, n, m), |Release(ctx, n, m)|), ctx, n, m)
    decreases m
  {
    hide ForAgent, CapOf, CallOf, Talking, Turn;
    if m == 0 {
      BurstState(w, ctx, agent, n);
    } else {
      ReleaseState(w, ctx, agent, n, m - 1);
      var events := Release(ctx, n, m - 1);
      ReleaseOne(w, After(w, events, |events|), ctx, agent, n, m);
      AfterMore(w, events, [Answer(m - 1, Accept)] + Serve(m - 1), 3);
    }
  }

  lemma {:induction false} ReleaseOne(w: World, s: State, ctx: Context, agent: string, n: nat, m: nat)
    requires 0 < m <= n && ForAgent(w, ctx, agent) && Released(w, s, ctx, n, m - 1)
    ensures Released(w, Then(w, s, [Answer(m - 1, Accept)] + Serve(m - 1), 3), ctx, n, m)
  {
    hide ForAgent, CallOf, Talking, Step, Enabled, Feed, Judge;
    CanBeOffered(w, ctx, agent);
    var a := Turn(w, s, Answer(m - 1, Accept));
    assert a.jobs == s.jobs[m - 1 := Waiting(CallOf(w, ctx))] && a.pool == s.pool;
    ServeCall(w, a, m - 1);
    ThenAfterOne(w, s, Answer(m - 1, Accept), Serve(m - 1));
  }

  lemma {:induction false} ThenAfterOne(w: World, s: State, first: Event, rest: seq<Event>)
    requires |rest| == 2
    ensures Then(w, s, [first] + rest, 3) == Then(w, Turn(w, s, first), rest, 2)
  {
  }

  // ---------------------------------------------------------------------------------------------
  // The count and the theorem
  // ---------------------------------------------------------------------------------------------

  lemma {:induction false} DecidingCounts(call: Call, r: Resource)
    ensures !In(Accepted(r), Deciding(call)) && !In(LiveUsing(r), Deciding(call))
  {
  }

  lemma {:induction false} ReleasedCounts(w: World, s: State, ctx: Context, agent: string, n: nat, m: nat)
    requires m <= n && ForAgent(w, ctx, agent) && Released(w, s, ctx, n, m)
    ensures Count(s.jobs, Accepted(OfAgent(agent))) == 0
    ensures Count(s.jobs, LiveUsing(OfAgent(agent))) == m
  {
    hide ForAgent, CallOf, Talking, In;
    CanBeOffered(w, ctx, agent);
    TalkingIsLive(w, CallOf(w, ctx), OfAgent(agent));
    DecidingCounts(CallOf(w, ctx), OfAgent(agent));
    assert Members(s.jobs, Accepted(OfAgent(agent))) == {};
    BelowMeans(m);
    assert Members(s.jobs, LiveUsing(OfAgent(agent))) == Below(m);
  }

  /** A run continued with events of which only the first may accept anybody. */
  lemma {:induction false} FewAcceptedMore(w: World, events: seq<Event>, more: seq<Event>, r: Resource)
    requires FewAccepted(w, events, r, 0) && more != []
    requires Admits(w, After(w, events, |events|), more[0], r) ==> Count(After(w, events, |events|).jobs, Accepted(r)) == 0
    requires forall i :: 1 <= i < |more| ==> !more[i].Offer? && !more[i].Answer?
    ensures FewAccepted(w, events + more, r, 0)
  {
    hide Turn, After, Count, FiledUnder, Accepts, CallOf, Happens;
    var all := events + more;
    forall i | 0 <= i < |all| && Admits(w, After(w, all, i), all[i], r)
      ensures Count(After(w, all, i).jobs, Accepted(r)) <= 0
    {
      if i <= |events| {
        AfterIgnoresLater(w, events, more, i);
        assert all[i] == if i < |events| then events[i] else more[0];
      }
    }
  }

  lemma {:induction false} BurstAdmitsNobody(w: World, ctx: Context, agent: string, n: nat)
    requires MaySuspend(w.options) && ForAgent(w, ctx, agent)
    requires CapOf(w.options, OfAgent(agent)).Some? && CapOf(w.options, OfAgent(agent)).value > 0
    ensures FewAccepted(w, Burst(ctx, n), OfAgent(agent), 0)
    decreases n
  {
    hide ForAgent, CapOf, Verdict, CallOf, Turn, Count, FiledUnder;
    if n > 0 {
      BurstAdmitsNobody(w, ctx, agent, n - 1);
      var events := Burst(ctx, n - 1);
      BurstState(w, ctx, agent, n - 1);
      BurstPasses(w, After(w, events, |events|), ctx, agent);
      AfterIgnoresLater(w, events, [Offer(n - 1, ctx, None)], |events|);
      FewAcceptedMore(w, events, [Offer(n - 1, ctx, None)], OfAgent(agent));
    }
  }

  /** No acceptance of the burst finds an accepted job waiting. */
  lemma {:induction false} ReleaseFindsNobody(w: World, ctx: Context, agent: string, n: nat, m: nat)
    requires m <= n && MaySuspend(w.options) && ForAgent(w, ctx, agent)
    requires CapOf(w.options, OfAgent(agent)).Some? && CapOf(w.options, OfAgent(agent)).value > 0
    ensures FewAccepted(w, Release(ctx, n, m), OfAgent(agent), 0)
    decreases m
  {
    hide ForAgent, CapOf, Verdict, CallOf, Turn, Count, FiledUnder;
    if m == 0 {
      BurstAdmitsNobody(w, ctx, agent, n);
    } else {
      ReleaseFindsNobody(w, ctx, agent, n, m - 1);
      var events, more := Release(ctx, n, m - 1), [Answer(m - 1, Accept)] + Serve(m - 1);
      ReleaseState(w, ctx, agent, n, m - 1);
      ReleasedCounts(w, After(w, events, |events|), ctx, agent, n, m - 1);
      AfterIgnoresLater(w, events, more, |events|);
      FewAcceptedMore(w, events, more, OfAgent(agent));
    }
  }

  /**
  That an agent's cap is overshot only by accepted jobs that wait to start holds exactly for a base decision
  that does not suspend. A user's own filter that may lets any number of requests past the cap together, and can
  then accept and start them one by one; one that replies at once keeps the bound like the pool's own decisions.
  */
  lemma {:induction false} BoundByAcceptedExactly(w: World, ctx: Context, agent: string)
    requires CapOf(w.options, OfAgent(agent)).Some? && CapOf(w.options, OfAgent(agent)).value > 0
    requires ForAgent(w, ctx, agent)
    ensures BoundByAccepted(w, agent) <==> !MaySuspend(w.options)
  {
    hide Turn, After, CapOf, ForAgent, FewAccepted, FewWaiting, Count;
    var cap := CapOf(w.options, OfAgent(agent)).value;
    if MaySuspend(w.options) {
      var events := Release(ctx, cap + 1, cap + 1);
      ReleaseState(w, ctx, agent, cap + 1, cap + 1);
      ReleasedCounts(w, After(w, events, |events|), ctx, agent, cap + 1, cap + 1);
      ReleaseFindsNobody(w, ctx, agent, cap + 1, cap + 1);
    } else {
      forall events, n: nat, k: nat | n <= |events| && FewAccepted(w, events, OfAgent(agent), k)
        ensures Count(After(w, events, n).jobs, LiveUsing(OfAgent(agent)))
                + Count(After(w, events, n).jobs, Accepted(OfAgent(agent))) <= cap + k
      {
        AcceptedAtOnce(w, events, OfAgent(agent), k);
        AgentCapBound(w, events, n, agent, k);
        NobodyDecides(w, events, n);
        WaitingIsAccepted(After(w, events, n).jobs, OfAgent(agent));
      }
    }
  }
}
