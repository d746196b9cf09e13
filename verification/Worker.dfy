/**
A whole coroutine worker: admission, the pool, every call's task, the metrics store, the breaker and a
drain, as one transition system. A step is one callback of the event loop: it runs from one `await` to
the next. Events arrive in any order; one that cannot happen changes nothing, so any sequence of events
is a run.
*/
module Worker {
  import opened Wrappers
  import opened Routing
  import opened RequestFilter
  import opened SessionRun
  import opened SessionLaws
  import opened CoroutinePool
  import Metrics
  import CircuitBreaker

  /** What is fixed for a worker's life: the registry, the options, and the wiring. No custom router. */
  datatype World = World(
    parse: Parser,
    agents: seq<string>,
    options: Options,
    rule: CircuitBreaker.Rule,
    supervisor: Supervisor,
    endHook: bool)

  datatype Identity = Identity(agent: string, tenant: string)

  /** A dispatched job: what admission files it under, and who it is once its session is built. */
  datatype Call = Call(ctx: Context, admittedAgent: Option<string>, admittedTenant: string, session: Option<Identity>)

  function SessionIdentity(w: World, ctx: Context): Option<Identity> {
    var route := ResolveAgent(w.parse, w.agents, ctx, None);
    var tenant := SessionTenant(w.parse, ctx);
    if route.Routed? && tenant.Some? then Some(Identity(route.name, tenant.value)) else None
  }

  function CallOf(w: World, ctx: Context): Call {
    Call(ctx, RequestAgentName(w.parse, w.agents, ctx.job), RequestTenant(w.parse, ctx.job), SessionIdentity(w, ctx))
  }

  /** A job from the moment the layers let it through. */
  datatype Entry =
    | Deciding(call: Call)                            // before the user's own filter, which may take its time
    | Waiting(call: Call)                             // accepted, its launch still to come
    | Gone(call: Call)                                // never launched: withdrawn, or refused by the pool
    | Misfired(call: Call)                            // its executor could not take the job
    | Running(call: Call, job: Job, retired: bool)    // launched; retired once the done callback ran

  /** `drain()`: not called, joining the executors it last saw, or returned. */
  datatype Drain = NotDraining | Joining(ids: seq<nat>) | Drained

  datatype State = State(
    now: real,
    jobs: map<nat, Entry>,
    pool: PoolState,
    metrics: Metrics.State,
    breaker: CircuitBreaker.State,
    drain: Drain)

  const Boot := State(0.0, map[], Fresh, Metrics.Initial, CircuitBreaker.Initial, NotDraining)

  /** The circumstances of a launch that neither the dispatch nor the world decides. */
  datatype Shape = Shape(fake: bool, readyHook: bool, greeting: bool, deferrable: bool)

  datatype Event =
    | Offer(id: nat, ctx: Context, atOnce: Option<Reply>)  // the reply of a user filter that does not suspend
    | Answer(id: nat, reply: Reply)                   // the user's own filter replies
    | Withdraw(id: nat)
    | LaunchJob(id: nat, shape: Shape, fails: bool)
    | Task(id: nat, event: TaskEvent)
    | DoneCallback(id: nat)
    | StartPool
    | StopPool
    | BeginDrain
    | AwaitDrain
    | DrainLooks
    | Tick(to: real)

  function PlanOf(w: World, call: Call, shape: Shape): Plan {
    var who := if call.session.Some? then call.session.value else Identity("", "");
    Plan(who.agent, who.tenant, shape.fake, shape.readyHook, shape.greeting, w.endHook, shape.deferrable)
  }

  function ReadingsOf(s: State): Readings {
    Readings(s.metrics.counters.byAgent, s.metrics.counters.byTenant,
             t => CircuitBreaker.Ask(s.breaker, t, s.now).1)
  }

  /** Whether requests can wait for a base decision: the user's own filter, if it may suspend. */
  predicate MaySuspend(o: Options) {
    o.base.UserFilter? && o.base.suspends
  }

  /** The layers over a user filter that gives this reply to the request, or none before it suspends. */
  function Asked(o: Options, reply: Option<Reply>): Options {
    if !o.base.UserFilter? then o
    else o.(base := UserFilter(o.base.suspends, if o.base.suspends || reply.None? then [] else [reply.value]))
  }

  /** What the filters reply before any of them suspends. */
  function Verdict(w: World, s: State, ctx: Context, reply: Option<Reply>): seq<Reply> {
    Decide(Stack(Asked(w.options, reply)), w.parse, w.agents, ReadingsOf(s), ctx.job)
  }

  predicate Accepts(w: World, s: State, ctx: Context, reply: Option<Reply>) {
    Verdict(w, s, ctx, reply) == [Accept]
  }

  /** The request got as far as the user's own filter, which suspends. */
  predicate HandsOver(w: World, s: State, ctx: Context) {
    MaySuspend(w.options) && Verdict(w, s, ctx, None) == []
  }

  predicate AllDone(jobs: map<nat, Entry>, ids: seq<nat>) {
    forall i :: 0 <= i < |ids| ==> ids[i] in jobs && jobs[ids[i]].Running? && jobs[ids[i]].job.phase.Done?
  }

  /** A session whose agent or tenant cannot be resolved is never built. */
  predicate Buildable(call: Call, e: TaskEvent) {
    e.FirstStep? && e.setup.Returned? && e.build.Returned? ==> call.session.Some?
  }

  predicate Happens(w: World, s: State, e: Event) {
    match e
    case Offer(id, ctx, _) => id !in s.jobs && PreConnect(ctx)
    case Answer(id, _) => id in s.jobs && s.jobs[id].Deciding?
    case Withdraw(id) => id in s.jobs && s.jobs[id].Waiting?
    case LaunchJob(id, _, _) => id in s.jobs && s.jobs[id].Waiting?
    case Task(id, event) =>
      id in s.jobs && s.jobs[id].Running? && Enabled(s.jobs[id].job, event) && Buildable(s.jobs[id].call, event)
    case DoneCallback(id) => id in s.jobs && s.jobs[id].Running? && s.jobs[id].job.phase.Done? && !s.jobs[id].retired
    case DrainLooks => s.drain.Joining? && AllDone(s.jobs, s.drain.ids)
    case Tick(to) => s.now <= to
    case _ => true
  }

  /** What a step added to a session's reports. */
  function News(before: Job, after: Job): seq<Signal> {
    if |before.signals| <= |after.signals| then after.signals[|before.signals|..] else []
  }

  function LookAgain(pool: PoolState): Drain {
    if pool.executors == [] then Drained else Joining(pool.executors)
  }

  function OfferNext(w: World, s: State, id: nat, ctx: Context, reply: Option<Reply>): State {
    var asked := s.(breaker := if w.options.breaker then
                                 CircuitBreaker.Ask(s.breaker, RequestTenant(w.parse, ctx.job), s.now).0
                               else s.breaker);
    if Accepts(w, s, ctx, reply) then asked.(jobs := s.jobs[id := Waiting(CallOf(w, ctx))])
    else if HandsOver(w, s, ctx) then asked.(jobs := s.jobs[id := Deciding(CallOf(w, ctx))])
    else asked
  }

  function LaunchNext(w: World, s: State, id: nat, call: Call, shape: Shape, fails: bool): State {
    s.(pool := Launch(w.supervisor, s.pool, id, fails),
       jobs := s.jobs[id := if !s.pool.started || s.pool.draining then Gone(call)
                            else if fails then Misfired(call)
                            else Running(call, Launched(PlanOf(w, call, shape)), false)])
  }

  function TaskNext(w: World, s: State, id: nat, e: Entry, after: Job): State
    requires e.Running?
  {
    var news := News(e.job, after);
    s.(jobs := s.jobs[id := e.(job := after)],
       metrics := Feed(s.metrics, after.plan, news),
       breaker := if w.options.breaker then Judge(w.rule, s.breaker, after.plan, news, s.now) else s.breaker)
  }

  function Next(w: World, s: State, e: Event): State
    requires Happens(w, s, e)
  {
    match e
    case Offer(id, ctx, reply) => OfferNext(w, s, id, ctx, reply)
    case Answer(id, reply) =>
      s.(jobs := s.jobs[id := if reply.Accept? then Waiting(s.jobs[id].call) else Gone(s.jobs[id].call)])
    case Withdraw(id) => s.(jobs := s.jobs[id := Gone(s.jobs[id].call)])
    case LaunchJob(id, shape, fails) => LaunchNext(w, s, id, s.jobs[id].call, shape, fails)
    case Task(id, event) => TaskNext(w, s, id, s.jobs[id], Step(s.jobs[id].job, event))
    case DoneCallback(id) =>
      s.(jobs := s.jobs[id := s.jobs[id].(retired := true)],
         pool := Retire(w.supervisor, s.pool, id, s.jobs[id].job.status))
    case StartPool => s.(pool := s.pool.(started := true))
    case StopPool => s.(pool := s.pool.(started := false))
    case BeginDrain => s.(pool := s.pool.(draining := true))
    case AwaitDrain => s.(pool := s.pool.(draining := true), drain := LookAgain(s.pool))
    case DrainLooks => s.(drain := LookAgain(s.pool))
    case Tick(to) => s.(now := to)
  }

  function Turn(w: World, s: State, e: Event): State {
    if Happens(w, s, e) then Next(w, s, e) else s
  }

  /** The worker after the first `n` of some events. */
  function After(w: World, events: seq<Event>, n: nat): State
    requires n <= |events|
    decreases n
  {
    if n == 0 then Boot else Turn(w, After(w, events, n - 1), events[n - 1])
  }
}
