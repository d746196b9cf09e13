/**
How far the session caps can be overshot (src/openrtc/routing/request_filter.py, lines 115 to 157 and
208 to 240). The gauges a cap reads rise only when a session starts, so jobs that were let through and wait
for the user's own filter, or to start, are invisible to it; the bound counts them.
*/
module SoftCapLaws {
  import opened Wrappers
  import opened Text
  import opened Routing
  import opened RequestFilter
  import opened SessionRun
  import opened SessionLaws
  import opened CoroutinePool
  import opened Worker
  import opened WorkerLaws
  import opened GaugeLaws
  import Metrics

  function CapOf(o: Options, r: Resource): Option<int> {
    match r
    case OfAgent(agent) =>
      if o.agentCaps.Some? && agent in o.agentCaps.value then Some(o.agentCaps.value[agent]) else None
    case OfTenant(tenant) =>
      if o.tenantCaps.Some? && tenant in o.tenantCaps.value then Some(o.tenantCaps.value[tenant]) else None
  }

  /** Sessions of a resource that are live, and jobs filed under it that were let through and wait to start. */
  function Demand(jobs: map<nat, Entry>, r: Resource): nat {
    Count(jobs, LiveUsing(r)) + Count(jobs, WaitingFor(r))
  }

  /** A session that will use the resource was filed under it when it was accepted. */
  predicate Faithful(call: Call, r: Resource) {
    match r
    case OfAgent(agent) => call.session.Some? && call.session.value.agent == agent ==> FiledUnder(call, r)
    case OfTenant(tenant) => call.session.Some? && call.session.value.tenant == tenant ==> FiledUnder(call, r)
  }

  /** Admission and routing resolve the same agent, so an agent's calls are always faithful. */
  lemma {:induction false} AgentsAreFaithful(w: World, ctx: Context, agent: string)
    requires PreConnect(ctx)
    ensures Faithful(CallOf(w, ctx), OfAgent(agent))
  {
    hide ResolveAgent, RequestAgentName, OwnsRoom;
    AdmissionAgreesWithRouting(w.parse, w.agents, ctx, None);
  }

  /** A tenant's calls are faithful exactly when the dispatched value is not padded with whitespace. */
  lemma {:induction false} TenantIsFaithfulExactly(w: World, ctx: Context, tenant: string)
    requires PreConnect(ctx) && SessionIdentity(w, ctx).Some? && SessionIdentity(w, ctx).value.tenant == tenant
    ensures Faithful(CallOf(w, ctx), OfTenant(tenant))
            <==> Strip(RequestTenant(w.parse, ctx.job)) == RequestTenant(w.parse, ctx.job)
  {
  }

  // ---------------------------------------------------------------------------------------------
  // One turn
  // ---------------------------------------------------------------------------------------------

  function Weight(e: Entry, r: Resource): nat {
    One(In(LiveUsing(r), e)) + One(In(WaitingFor(r), e))
  }

  lemma {:induction false} DemandUpdate(jobs: map<nat, Entry>, id: nat, e: Entry, r: Resource)
    ensures Demand(jobs[id := e], r) + (if id in jobs then Weight(jobs[id], r) else 0) == Demand(jobs, r) + Weight(e, r)
  {
    hide In, Count;
    CountUpdate(jobs, id, e, LiveUsing(r));
    CountUpdate(jobs, id, e, WaitingFor(r));
  }

  lemma {:induction false} CountsGrow(a: seq<Signal>, b: seq<Signal>)
    ensures Starts(a + b) == Starts(a) + Starts(b) && Ends(a + b) == Ends(a) + Ends(b)
    decreases |b|
  {
    if b == [] {
      assert a + b == a;
    } else {
      var init := b[..|b| - 1];
      CountsGrow(a, init);
      assert (a + b)[..|a + b| - 1] == a + init;
    }
  }

  /** A step of a call never asks for more: a waiting call may start, a live one may end. */
  lemma {:induction false} StepWeight(w: World, e: Entry, event: TaskEvent, r: Resource)
    requires e.Running? && EntryOk(w, e) && Faithful(e.call, r)
    requires Enabled(e.job, event) && Buildable(e.call, event)
    ensures Weight(e.(job := Step(e.job, event)), r) <= Weight(e, r)
  {
    hide Step, Sound, CallOk, Starts, Ends, Enabled;
    var after := Step(e.job, event);
    TaskEntryOk(w, e, event);
    StepFollows(e.job, event);
    TaskMovesForward(e.job, event);
    CountsGrow(e.job.signals, News(e.job, after));
    SoundCounts(e.job);
    SoundCounts(after);
    SilentCounts();
    DoneIsSilent(e.job, event);
  }

  lemma {:induction false} DoneIsSilent(j: Job, event: TaskEvent)
    requires Enabled(j, event)
    ensures j.phase.Done? ==> Step(j, event).signals == j.signals
  {
  }

  lemma {:induction false} SilentCounts()
    ensures Starts([]) == 0 && Ends([]) == 0
  {
  }

  /** A call that has reported nothing weighs at most as much as one still waiting. */
  lemma {:induction false} SilentWeight(call: Call, plan: Plan, r: Resource)
    ensures Weight(Deciding(call), r) == Weight(Waiting(call), r) == One(FiledUnder(call, r))
    ensures Weight(Gone(call), r) == 0 && Weight(Misfired(call), r) == 0
    ensures Weight(Running(call, Launched(plan), false), r) == One(FiledUnder(call, r))
  {
  }

  lemma {:induction false} RetiredWeight(e: Entry, r: Resource)
    requires e.Running?
    ensures Weight(e.(retired := true), r) == Weight(e, r)
  {
  }

  ghost predicate AllFaithful(jobs: map<nat, Entry>, r: Resource) {
    forall id :: id in jobs ==> Faithful(jobs[id].call, r)
  }

  /** The event that can raise a resource's demand: an offer filed under it that the layers let through. */
  predicate Raises(w: World, s: State, e: Event, r: Resource) {
    && e.Offer? && Happens(w, s, e) && FiledUnder(CallOf(w, e.ctx), r)
    && (Accepts(w, s, e.ctx, e.atOnce) || HandsOver(w, s, e.ctx))
  }

  lemma {:induction false} TurnDemand(w: World, s: State, e: Event, r: Resource)
    requires JobsOk(w, s.jobs) && AllFaithful(s.jobs, r)
    ensures Demand(Turn(w, s, e).jobs, r) <= Demand(s.jobs, r) + One(Raises(w, s, e, r))
  {
    hide Step, CallOf, Feed, Judge, Launch, Retire, Verdict, Enabled, Buildable, PreConnect, PlanOf, AllDone,
         EntryOk, Weight, Demand, FiledUnder, Faithful;
    if Happens(w, s, e) {
      match e {
        case Offer(id, ctx, _) =>
          DemandUpdate(s.jobs, id, Waiting(CallOf(w, ctx)), r);
          DemandUpdate(s.jobs, id, Deciding(CallOf(w, ctx)), r);
          SilentWeight(CallOf(w, ctx), PlanOf(w, CallOf(w, ctx), Shape(false, false, false, false)), r);
        case Answer(id, _) =>
          DemandUpdate(s.jobs, id, Waiting(s.jobs[id].call), r);
          DemandUpdate(s.jobs, id, Gone(s.jobs[id].call), r);
          SilentWeight(s.jobs[id].call, PlanOf(w, s.jobs[id].call, Shape(false, false, false, false)), r);
        case Withdraw(id) =>
          DemandUpdate(s.jobs, id, Gone(s.jobs[id].call), r);
          SilentWeight(s.jobs[id].call, PlanOf(w, s.jobs[id].call, Shape(false, false, false, false)), r);
        case LaunchJob(id, shape, fails) =>
          var call := s.jobs[id].call;
          DemandUpdate(s.jobs, id, Gone(call), r);
          DemandUpdate(s.jobs, id, Misfired(call), r);
          DemandUpdate(s.jobs, id, Running(call, Launched(PlanOf(w, call, shape)), false), r);
          SilentWeight(call, PlanOf(w, call, shape), r);
        case Task(id, event) =>
          DemandUpdate(s.jobs, id, s.jobs[id].(job := Step(s.jobs[id].job, event)), r);
          StepWeight(w, s.jobs[id], event, r);
        case DoneCallback(id) =>
          DemandUpdate(s.jobs, id, s.jobs[id].(retired := true), r);
          RetiredWeight(s.jobs[id], r);
        case _ =>
      }
    }
  }

  lemma {:induction false} LetThroughMeansPassed(w: World, s: State, ctx: Context, reply: Option<Reply>)
    requires Accepts(w, s, ctx, reply) || HandsOver(w, s, ctx)
    ensures LayersPass(w.options, w.parse, w.agents, ReadingsOf(s), ctx.job)
  {
    hide Decide, Stack, LayersPass;
    SameLayers(w, s, ctx, reply);
    SameLayers(w, s, ctx, None);
    StackDecides(Asked(w.options, reply), w.parse, w.agents, ReadingsOf(s), ctx.job);
    StackDecides(Asked(w.options, None), w.parse, w.agents, ReadingsOf(s), ctx.job);
  }

  lemma {:induction false} SameLayers(w: World, s: State, ctx: Context, reply: Option<Reply>)
    ensures LayersPass(Asked(w.options, reply), w.parse, w.agents, ReadingsOf(s), ctx.job)
            <==> LayersPass(w.options, w.parse, w.agents, ReadingsOf(s), ctx.job)
  {
  }

  /** A job filed under a capped resource is let through only while the resource's gauge is below the cap. */
  lemma {:induction false} LetThroughBelowCap(w: World, s: State, e: Event, r: Resource)
    requires Raises(w, s, e, r) && CapOf(w.options, r).Some?
    ensures GaugeOf(s.metrics.counters, r) < CapOf(w.options, r).value
  {
    hide Verdict, RequestAgentName, RequestTenant;
    LetThroughMeansPassed(w, s, e.ctx, e.atOnce);
  }

  // ---------------------------------------------------------------------------------------------
  // Whole runs
  // ---------------------------------------------------------------------------------------------

  /** Every offered job is faithful to the resource. */
  ghost predicate OffersFaithful(w: World, events: seq<Event>, r: Resource) {
    forall i :: 0 <= i < |events| && events[i].Offer? && PreConnect(events[i].ctx) ==> Faithful(CallOf(w, events[i].ctx), r)
  }

  /** Whenever an offer for the resource is let through, at most `k` earlier ones are still waiting to start. */
  ghost predicate FewWaiting(w: World, events: seq<Event>, r: Resource, k: nat) {
    forall i :: 0 <= i < |events| && Raises(w, After(w, events, i), events[i], r) ==>
      Count(After(w, events, i).jobs, WaitingFor(r)) <= k
  }

  lemma {:induction false} TurnFaithful(w: World, s: State, e: Event, r: Resource)
    requires AllFaithful(s.jobs, r)
    requires e.Offer? && PreConnect(e.ctx) ==> Faithful(CallOf(w, e.ctx), r)
    ensures AllFaithful(Turn(w, s, e).jobs, r)
  {
  }

  lemma {:induction false} ReachableFaithful(w: World, events: seq<Event>, n: nat, r: Resource)
    requires n <= |events| && OffersFaithful(w, events, r)
    ensures AllFaithful(After(w, events, n).jobs, r)
    decreases n
  {
    hide Turn, Faithful, CallOf, PreConnect;
    if n > 0 {
      ReachableFaithful(w, events, n - 1, r);
      TurnFaithful(w, After(w, events, n - 1), events[n - 1], r);
    }
  }

  lemma {:induction false} NoDemandAtBoot(r: Resource)
    ensures Demand(Boot.jobs, r) == 0
  {
  }

  /**
  The soft cap's bound, for an agent or a tenant: when every offered session of the resource is filed
  under it, and no offer that is let through finds more than `k` others waiting, then its live sessions and
  waiting jobs together never exceed the cap by more than `k`, however long a user's own filter takes.
  */
  lemma {:induction false} SoftCapBound(w: World, events: seq<Event>, n: nat, r: Resource, k: nat)
    requires n <= |events| && CapOf(w.options, r).Some? && CapOf(w.options, r).value > 0
    requires OffersFaithful(w, events, r) && FewWaiting(w, events, r, k)
    ensures Demand(After(w, events, n).jobs, r) <= CapOf(w.options, r).value + k
    decreases n
  {
    hide Turn, Raises, CapOf, OffersFaithful, GaugesMatch, Count, JobsOk, AllFaithful, GaugeOf;
    if n == 0 {
      NoDemandAtBoot(r);
    } else {
      SoftCapBound(w, events, n - 1, r, k);
      ReachableJobsOk(w, events, n - 1);
      ReachableFaithful(w, events, n - 1, r);
      var s, e := After(w, events, n - 1), events[n - 1];
      TurnDemand(w, s, e, r);
      if Raises(w, s, e, r) {
        LetThroughBelowCap(w, s, e, r);
        ReachableGauges(w, events, n - 1);
        GaugeIsCount(s.jobs, s.metrics.counters, r);
      }
    }
  }

  lemma {:induction false} GaugeIsCount(jobs: map<nat, Entry>, c: Metrics.Counters, r: Resource)
    requires GaugesMatch(jobs, c)
    ensures GaugeOf(c, r) == Count(jobs, LiveUsing(r))
  {
  }

  /** For an agent's cap the bound needs nothing of the requests. */
  lemma {:induction false} AgentCapBound(w: World, events: seq<Event>, n: nat, agent: string, k: nat)
    requires n <= |events| && CapOf(w.options, OfAgent(agent)).Some? && CapOf(w.options, OfAgent(agent)).value > 0
    requires FewWaiting(w, events, OfAgent(agent), k)
    ensures Demand(After(w, events, n).jobs, OfAgent(agent)) <= CapOf(w.options, OfAgent(agent)).value + k
  {
    hide Turn, Raises, CapOf, Faithful, CallOf, PreConnect;
    assert OffersFaithful(w, events, OfAgent(agent)) by {
      forall i | 0 <= i < |events| && events[i].Offer? && PreConnect(events[i].ctx)
        ensures Faithful(CallOf(w, events[i].ctx), OfAgent(agent))
      {
        AgentsAreFaithful(w, events[i].ctx, agent);
      }
    }
    SoftCapBound(w, events, n, OfAgent(agent), k);
  }
}
