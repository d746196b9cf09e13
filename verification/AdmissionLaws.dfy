/**
Which requests a worker turns down and which jobs come to run, in every reachable state: the layers of the filter
against the sessions that are live (src/openrtc/routing/request_filter.py, lines 115 to 270), and what happened to
a job before it got where it is.
*/
module AdmissionLaws {
  import opened Wrappers
  import opened Routing
  import opened RequestFilter
  import opened SessionRun
  import opened SessionLaws
  import opened CoroutinePool
  import opened Worker
  import opened WorkerLaws
  import opened GaugeLaws
  import opened CloseLaws
  import opened BreakerLaws

  // ---------------------------------------------------------------------------------------------
  // The layers
  // ---------------------------------------------------------------------------------------------

  /** The agent is capped, and has as many live sessions as its cap allows or more. */
  predicate AgentFull(jobs: map<nat, Entry>, caps: map<string, int>, agent: Option<string>) {
    agent.Some? && agent.value in caps && Count(jobs, LiveUsing(OfAgent(agent.value))) >= caps[agent.value]
  }

  predicate TenantFull(jobs: map<nat, Entry>, caps: map<string, int>, tenant: string) {
    tenant in caps && Count(jobs, LiveUsing(OfTenant(tenant))) >= caps[tenant]
  }

  lemma {:induction false} ReadingsAreCounts(w: World, events: seq<Event>, n: nat, caps: map<string, int>,
                                             agent: Option<string>, tenant: string)
    requires n <= |events|
    ensures var s := After(w, events, n);
            && (AgentFull(s.jobs, caps, agent) <==> agent.Some? && AtCap(caps, ReadingsOf(s).byAgent, agent.value))
            && (TenantFull(s.jobs, caps, tenant) <==> AtCap(caps, ReadingsOf(s).byTenant, tenant))
  {
    hide Turn, Count;
    GaugesConserved(w, events, n);
  }

  /** In every reachable state the agent layer refuses a dispatch exactly if its agent is full, and else passes it on. */
  lemma {:induction false} AgentLayerExactly(w: World, events: seq<Event>, n: nat, caps: map<string, int>, below: Filter,
                                             req: Dispatch)
    requires n <= |events|
    ensures var s := After(w, events, n);
            Decide(AgentCap(caps, below), w.parse, w.agents, ReadingsOf(s), req)
            == if AgentFull(s.jobs, caps, RequestAgentName(w.parse, w.agents, req)) then [Reject]
               else Decide(below, w.parse, w.agents, ReadingsOf(s), req)
  {
    hide Turn, AgentFull, AtCap, RequestAgentName, ReadingsOf;
    ReadingsAreCounts(w, events, n, caps, RequestAgentName(w.parse, w.agents, req), "");
  }

  /** The same for the tenant layer, by the dispatched tenant. */
  lemma {:induction false} TenantLayerExactly(w: World, events: seq<Event>, n: nat, caps: map<string, int>, below: Filter,
                                              req: Dispatch)
    requires n <= |events|
    ensures var s := After(w, events, n);
            Decide(TenantCap(caps, below), w.parse, w.agents, ReadingsOf(s), req)
            == if TenantFull(s.jobs, caps, RequestTenant(w.parse, req)) then [Reject]
               else Decide(below, w.parse, w.agents, ReadingsOf(s), req)
  {
    hide Turn, TenantFull, AtCap, RequestTenant, ReadingsOf;
    ReadingsAreCounts(w, events, n, caps, None, RequestTenant(w.parse, req));
  }

  /** The breaker of the dispatched tenant is open: less than a cooldown has passed since outcomes last opened it. */
  ghost predicate BreakerOpen(w: World, events: seq<Event>, n: nat, tenant: string)
    requires n <= |events|
  {
    var tripped := LastOpening(w, History(w, events, n), tenant);
    w.options.breaker && tripped.Some? && After(w, events, n).now < tripped.value + w.rule.cooldown
  }

  /** Something in the layers stands against the dispatch. */
  ghost predicate Refused(w: World, events: seq<Event>, n: nat, req: Dispatch)
    requires n <= |events|
  {
    var jobs, o := After(w, events, n).jobs, w.options;
    || BreakerOpen(w, events, n, RequestTenant(w.parse, req))
    || (o.tenantCaps.Some? && TenantFull(jobs, o.tenantCaps.value, RequestTenant(w.parse, req)))
    || (o.agentCaps.Some? && AgentFull(jobs, o.agentCaps.value, RequestAgentName(w.parse, w.agents, req)))
  }

  /** What the base decision replies by itself. */
  ghost function BaseReplies(w: World, req: Dispatch, atOnce: Option<Reply>): seq<Reply> {
    match w.options.base
    case NoBase => [Accept]
    case RegisteredRooms => if ExplicitOwner(w.parse, w.agents, req).Some? then [Accept] else [Reject]
    case UserFilter(suspends, _) => if suspends || atOnce.None? then [] else [atOnce.value]
  }

  /**
  What a worker replies to a request, in every reachable state: one rejection if the breaker of its tenant is open or
  its tenant or its agent is full, and otherwise what the base decision replies.
  */
  lemma {:induction false} AdmitsExactly(w: World, events: seq<Event>, n: nat, ctx: Context, atOnce: Option<Reply>)
    requires n <= |events|
    ensures Verdict(w, After(w, events, n), ctx, atOnce)
            == if Refused(w, events, n, ctx.job) then [Reject] else BaseReplies(w, ctx.job, atOnce)
  {
    hide Turn, AgentFull, TenantFull, AtCap, RequestAgentName, RequestTenant, ReadingsOf, OwnsRoom, ExplicitOwner, History,
         LastOpening;
    var s, o, agent, tenant := After(w, events, n), w.options, RequestAgentName(w.parse, w.agents, ctx.job),
                               RequestTenant(w.parse, ctx.job);
    if o.agentCaps.Some? {
      ReadingsAreCounts(w, events, n, o.agentCaps.value, agent, tenant);
    }
    if o.tenantCaps.Some? {
      ReadingsAreCounts(w, events, n, o.tenantCaps.value, agent, tenant);
    }
    if o.breaker {
      CircuitRefusesExactly(w, events, n, ctx, atOnce);
    }
    OwnsRoomIffExplicitOwner(w.parse, w.agents, ctx.job);
    StackDecides(Asked(o, atOnce), w.parse, w.agents, ReadingsOf(s), ctx.job);
  }

  // ---------------------------------------------------------------------------------------------
  // What happened to a job
  // ---------------------------------------------------------------------------------------------

  /** The job is accepted in this turn, by the filter or later by the user's own one. */
  predicate AcceptedIn(w: World, s: State, e: Event, id: nat) {
    match e
    case Offer(i, ctx, atOnce) => i == id && Happens(w, s, e) && Accepts(w, s, ctx, atOnce)
    case Answer(i, reply) => i == id && Happens(w, s, e) && reply.Accept?
    case _ => false
  }

  /** It is launched in this turn, by a pool that takes jobs. */
  predicate LaunchedIn(w: World, s: State, e: Event, id: nat) {
    && e.LaunchJob? && e.id == id && !e.fails && s.pool.started && !s.pool.draining
    && id in s.jobs && s.jobs[id].Waiting?
  }

  ghost predicate EverAccepted(w: World, events: seq<Event>, n: nat, id: nat)
    requires n <= |events|
  {
    exists i :: 0 <= i < n && AcceptedIn(w, After(w, events, i), events[i], id)
  }

  ghost predicate EverLaunched(w: World, events: seq<Event>, n: nat, id: nat)
    requires n <= |events|
  {
    exists i :: 0 <= i < n && LaunchedIn(w, After(w, events, i), events[i], id)
  }

  /** Past the user's own filter, and neither withdrawn nor refused by the pool. */
  predicate Taken(s: State, id: nat) {
    id in s.jobs && (s.jobs[id].Waiting? || s.jobs[id].Misfired? || s.jobs[id].Running?)
  }

  lemma {:induction false} TurnTakes(w: World, s: State, e: Event, id: nat)
    ensures Taken(Turn(w, s, e), id) ==> Taken(s, id) || AcceptedIn(w, s, e, id)
    ensures HasTask(Turn(w, s, e), id) <==> HasTask(s, id) || LaunchedIn(w, s, e, id)
  {
    hide Step, CallOf, Feed, Judge, Launch, Retire, Verdict, Enabled, Buildable, PreConnect, PlanOf, AllDone;
  }

  /** A job runs exactly if it was launched by a pool that takes jobs, and no job gets there that was not accepted. */
  lemma {:induction false} RunsExactly(w: World, events: seq<Event>, n: nat, id: nat)
    requires n <= |events|
    ensures HasTask(After(w, events, n), id) <==> EverLaunched(w, events, n, id)
    ensures Taken(After(w, events, n), id) ==> EverAccepted(w, events, n, id)
    decreases n
  {
    hide Turn, Taken, HasTask, AcceptedIn, LaunchedIn;
    if n == 0 {
      NobodyYet(id);
    } else {
      RunsExactly(w, events, n - 1, id);
      TurnTakes(w, After(w, events, n - 1), events[n - 1], id);
      if EverAccepted(w, events, n - 1, id) {
        var i :| 0 <= i < n - 1 && AcceptedIn(w, After(w, events, i), events[i], id);
        assert EverAccepted(w, events, n, id);
      }
      if EverLaunched(w, events, n - 1, id) {
        var i :| 0 <= i < n - 1 && LaunchedIn(w, After(w, events, i), events[i], id);
        assert EverLaunched(w, events, n, id);
      }
    }
  }

  lemma {:induction false} NobodyYet(id: nat)
    ensures !Taken(Boot, id) && !HasTask(Boot, id)
  {
  }

  predicate GivenUp(s: State, id: nat) {
    id in s.jobs && s.jobs[id].Gone?
  }

  lemma {:induction false} TurnGivesUp(w: World, s: State, e: Event, id: nat)
    ensures GivenUp(s, id) ==> GivenUp(Turn(w, s, e), id)
    ensures id in s.jobs && s.jobs[id].Deciding? && e == Answer(id, Reject) ==> GivenUp(Turn(w, s, e), id)
    ensures id in s.jobs && s.jobs[id].Waiting? && e == Withdraw(id) ==> GivenUp(Turn(w, s, e), id)
    ensures id in s.jobs && s.jobs[id].Waiting? && e.LaunchJob? && e.id == id && (!s.pool.started || s.pool.draining) ==>
              GivenUp(Turn(w, s, e), id)
  {
    hide Step, CallOf, Feed, Judge, Launch, Retire, Verdict, Enabled, Buildable, PreConnect, PlanOf, AllDone;
  }

  /** The job is turned down in this turn: by the user's filter, by a withdrawal, or by a pool that takes none. */
  predicate TurnedDownIn(s: State, e: Event, id: nat) {
    id in s.jobs &&
    ((s.jobs[id].Deciding? && e == Answer(id, Reject))
     || (s.jobs[id].Waiting? && (e == Withdraw(id)
                                 || (e.LaunchJob? && e.id == id && (!s.pool.started || s.pool.draining)))))
  }

  /** Such a job never runs. */
  lemma {:induction false} TurnedDownStays(w: World, events: seq<Event>, m: nat, n: nat, id: nat)
    requires m < n <= |events| && TurnedDownIn(After(w, events, m), events[m], id)
    ensures GivenUp(After(w, events, n), id) && !HasTask(After(w, events, n), id)
    decreases n
  {
    hide Turn;
    if m < n - 1 {
      TurnedDownStays(w, events, m, n - 1, id);
    }
    TurnGivesUp(w, After(w, events, n - 1), events[n - 1], id);
  }

  // ---------------------------------------------------------------------------------------------
  // Whose session it becomes
  // ---------------------------------------------------------------------------------------------

  /** A job was offered with this dispatch. */
  ghost predicate OfferedAs(events: seq<Event>, n: nat, id: nat, ctx: Context)
    requires n <= |events|
  {
    exists i :: 0 <= i < n && events[i].Offer? && events[i].id == id && events[i].ctx == ctx
  }

  lemma {:induction false} TurnKeepsContext(w: World, s: State, e: Event, id: nat)
    ensures id in Turn(w, s, e).jobs ==>
              if id in s.jobs then Turn(w, s, e).jobs[id].call == s.jobs[id].call
              else e.Offer? && e.id == id && e.ctx == Turn(w, s, e).jobs[id].call.ctx
  {
    hide Step, Feed, Judge, Launch, Retire, Verdict, Enabled, Buildable, PreConnect, PlanOf, AllDone, SessionIdentity,
         RequestTenant, RequestAgentName;
  }

  lemma {:induction false} JobsAreOffered(w: World, events: seq<Event>, n: nat, id: nat)
    requires n <= |events| && id in After(w, events, n).jobs
    ensures OfferedAs(events, n, id, After(w, events, n).jobs[id].call.ctx)
    decreases n
  {
    hide Turn;
    if n > 0 {
      TurnKeepsContext(w, After(w, events, n - 1), events[n - 1], id);
      if id in After(w, events, n - 1).jobs {
        JobsAreOffered(w, events, n - 1, id);
        var ctx := After(w, events, n).jobs[id].call.ctx;
        var i :| 0 <= i < n - 1 && events[i].Offer? && events[i].id == id && events[i].ctx == ctx;
        assert OfferedAs(events, n, id, ctx);
      }
    }
  }

  /**
  A job that runs becomes the session its dispatch calls for: of the agent routing finds and of the dispatch's tenant,
  and of nobody if either cannot be had. Its first step can build the session exactly if both can.
  */
  lemma {:induction false} BuiltExactly(w: World, events: seq<Event>, n: nat, id: nat)
    requires n <= |events| && HasTask(After(w, events, n), id)
    ensures var s := After(w, events, n);
            var ctx, job := s.jobs[id].call.ctx, s.jobs[id].job;
            var route, tenant := ResolveAgent(w.parse, w.agents, ctx, None), SessionTenant(w.parse, ctx);
            && OfferedAs(events, n, id, ctx)
            && (route.Routed? && tenant.Some? ==> job.plan.agent == route.name && job.plan.tenant == tenant.value)
            && (job.signals != [] ==> route.Routed? && tenant.Some?)
            && (job.phase.Scheduled? && !job.cancelRequested ==>
                  (Happens(w, s, Task(id, FirstStep(Returned, Returned))) <==> route.Routed? && tenant.Some?))
  {
    hide Turn, ResolveAgent, SessionTenant, Sound, RequestAgentName, RequestTenant;
    ReachableJobsOk(w, events, n);
    JobsAreOffered(w, events, n, id);
    assert EntryOk(w, After(w, events, n).jobs[id]);
  }

  // ---------------------------------------------------------------------------------------------
  // A job in a worker is a run of its own
  // ---------------------------------------------------------------------------------------------

  /** What happened to the job's task so far. */
  function TaskEvents(w: World, events: seq<Event>, n: nat, id: nat): seq<TaskEvent>
    requires n <= |events|
    decreases n
  {
    if n == 0 then []
    else
      var e := events[n - 1];
      TaskEvents(w, events, n - 1, id)
      + if e.Task? && e.id == id && Happens(w, After(w, events, n - 1), e) then [e.event] else []
  }

  /**
  Whatever else goes on in the worker, each job stands where the events of its own task lead, so that what every run
  of one call keeps is kept by every call of every worker.
  */
  lemma {:induction false} JobsAreRuns(w: World, events: seq<Event>, n: nat, id: nat)
    requires n <= |events|
    ensures var s, own := After(w, events, n), TaskEvents(w, events, n, id);
            if HasTask(s, id) then s.jobs[id].job == RunTo(s.jobs[id].job.plan, own, |own|) else own == []
    decreases n
  {
    hide Turn, Happens;
    if n > 0 {
      JobsAreRuns(w, events, n - 1, id);
      var s, e, own := After(w, events, n - 1), events[n - 1], TaskEvents(w, events, n - 1, id);
      if HasTask(s, id) {
        TurnOfJob(w, s, e, id);
        if e.Task? && e.id == id && Happens(w, s, e) {
          OwnTurn(w, s, e);
          RunMore(s.jobs[id].job.plan, own, e.event);
          RunSound(s.jobs[id].job.plan, own + [e.event], |own| + 1);
        } else {
          assert own + [] == own;
        }
      } else {
        LaunchedFresh(w, s, e, id);
      }
    }
  }

  lemma {:induction false} OwnTurn(w: World, s: State, e: Event)
    requires e.Task? && Happens(w, s, e)
    ensures HasTask(s, e.id) && Enabled(s.jobs[e.id].job, e.event)
  {
  }

  lemma {:induction false} LaunchedFresh(w: World, s: State, e: Event, id: nat)
    requires !HasTask(s, id)
    ensures e.Task? && e.id == id ==> !Happens(w, s, e)
    ensures HasTask(Turn(w, s, e), id) ==>
              var job := Turn(w, s, e).jobs[id].job; job == Launched(job.plan)
  {
    hide Step, CallOf, Feed, Judge, Launch, Retire, Verdict, Enabled, Buildable, PreConnect, PlanOf, AllDone;
  }
}
