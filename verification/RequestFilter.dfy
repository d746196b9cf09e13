/**
Which jobs a worker accepts (src/openrtc/routing/request_filter.py) and how the pool stacks the
filters (src/openrtc/core/pool.py, lines 330 to 391).

Admission decides one layer before routing, from the dispatch alone; the lemmas say when the two agree.
*/
module RequestFilter {
  import opened Text
  import opened Routing
  import opened Wrappers

  /** The name found in metadata if it is registered, and nothing otherwise. */
  function Registered(agents: seq<string>, name: Option<string>): Option<string> {
    if name.Some? && name.value in agents then name else None
  }

  /** The explicit signals in routing order, without the fallback. */
  function ExplicitOwner(parse: Parser, agents: seq<string>, req: Dispatch): Option<string> {
    var byJob := Registered(agents, AgentNameFromMetadata(parse, req.jobMetadata));
    var byRoom := Registered(agents, AgentNameFromMetadata(parse, req.roomMetadata));
    if byJob.Some? then byJob
    else if byRoom.Some? then byRoom
    else if req.roomName.Some? then PrefixOwner(agents, req.roomName.value)
    else None
  }

  predicate OwnsRoom(parse: Parser, agents: seq<string>, req: Dispatch) {
    || Registered(agents, AgentNameFromMetadata(parse, req.jobMetadata)).Some?
    || Registered(agents, AgentNameFromMetadata(parse, req.roomMetadata)).Some?
    || (req.roomName.Some? && exists i :: 0 <= i < |agents| && StartsWith(req.roomName.value, agents[i] + "-"))
  }

  function RequestAgentName(parse: Parser, agents: seq<string>, req: Dispatch): Option<string> {
    if agents == [] then None
    else if ExplicitOwner(parse, agents, req).Some? then ExplicitOwner(parse, agents, req)
    else Some(agents[0])
  }

  function RequestTenant(parse: Parser, req: Dispatch): string {
    RawTenant(Merge(parse, req.roomMetadata, req.jobMetadata))
  }

  // ---------------------------------------------------------------------------------------------
  // Admission against routing
  // ---------------------------------------------------------------------------------------------

  lemma {:induction false} PrefixOwnerExists(agents: seq<string>, roomName: string)
    ensures PrefixOwner(agents, roomName).Some?
            <==> exists i :: 0 <= i < |agents| && StartsWith(roomName, agents[i] + "-")
    decreases |agents|
  {
    if agents != [] {
      PrefixOwnerExists(agents[1..], roomName);
      if PrefixOwner(agents, roomName).Some? && !StartsWith(roomName, agents[0] + "-") {
        var i :| 0 <= i < |agents[1..]| && StartsWith(roomName, agents[1..][i] + "-");
        assert agents[i + 1] == agents[1..][i];
      }
    }
  }

  /** The ownership filter's yes is exactly the existence of an explicit owner. */
  lemma OwnsRoomIffExplicitOwner(parse: Parser, agents: seq<string>, req: Dispatch)
    ensures OwnsRoom(parse, agents, req) <==> ExplicitOwner(parse, agents, req).Some?
  {
    if req.roomName.Some? {
      PrefixOwnerExists(agents, req.roomName.value);
    }
  }

  lemma {:induction false} NothingStartsEmpty(agents: seq<string>)
    ensures PrefixOwner(agents, "").None?
    decreases |agents|
  {
    if agents != [] {
      NothingStartsEmpty(agents[1..]);
    }
  }

  /** Before connect the view shows routing the same signals admission read from the dispatch. */
  lemma ViewShowsDispatch(parse: Parser, agents: seq<string>, ctx: Context)
    requires PreConnect(ctx)
    ensures AgentNameFromMetadata(parse, ViewRoomMetadata(ctx)) == AgentNameFromMetadata(parse, ctx.job.roomMetadata)
    ensures Merge(parse, ViewRoomMetadata(ctx), ctx.job.jobMetadata)
            == Merge(parse, ctx.job.roomMetadata, ctx.job.jobMetadata)
    ensures PrefixOwner(agents, ViewRoomName(ctx))
            == if ctx.job.roomName.Some? then PrefixOwner(agents, ctx.job.roomName.value) else None
  {
  }

  /** The chain written out, from its last strategy to its first. */
  lemma ChainUnrolled(parse: Parser, agents: seq<string>, ctx: Context)
    requires agents != []
    ensures var job := Resolve(parse, agents, ctx, FromJobMetadata);
            var room := Resolve(parse, agents, ctx, FromRoomMetadata);
            var prefix := Resolve(parse, agents, ctx, FromRoomPrefix);
            FirstDecision(parse, agents, ctx, STRATEGIES)
            == if !job.Defer? then (job, FromJobMetadata)
               else if !room.Defer? then (room, FromRoomMetadata)
               else if !prefix.Defer? then (prefix, FromRoomPrefix)
               else (Pick(agents[0]), DefaultFallback)
  {
  }

  /**
  Without a router, or with one that defers: whenever routing finds an agent, admission attributed the
  job to the same agent, and the worker owned the room exactly when that was not the fallback's doing.
  */
  lemma AdmissionAgreesWithRouting(parse: Parser, agents: seq<string>, ctx: Context, router: Option<RouterAnswer>)
    requires PreConnect(ctx) && (router.None? || router.value.Deferred?)
    ensures var route := ResolveAgent(parse, agents, ctx, router);
            && (route.Routed? ==>
                  && RequestAgentName(parse, agents, ctx.job) == Some(route.name)
                  && route.name in agents && route.via.Some?
                  && (OwnsRoom(parse, agents, ctx.job) <==> route.via != Some(DefaultFallback)))
            && (RequestAgentName(parse, agents, ctx.job).None? <==> route == Rejected(NoAgents))
  {
    hide AgentNameFromMetadata, Merge;
    OwnsRoomIffExplicitOwner(parse, agents, ctx.job);
    ViewShowsDispatch(parse, agents, ctx);
    if agents != [] {
      ChainUnrolled(parse, agents, ctx);
    }
  }

  /**
  The other half: a job admission attributed to an agent is refused by routing exactly when the first
  metadata source that names an agent names an unregistered one.
  */
  lemma RoutingRefusesExactly(parse: Parser, agents: seq<string>, ctx: Context)
    requires PreConnect(ctx) && agents != []
    ensures var byJob := AgentNameFromMetadata(parse, ctx.job.jobMetadata);
            var byRoom := AgentNameFromMetadata(parse, ctx.job.roomMetadata);
            ResolveAgent(parse, agents, ctx, None).Rejected?
            <==> if byJob.Some? then byJob.value !in agents else byRoom.Some? && byRoom.value !in agents
  {
  }

  /** Such a job can be owned all the same: an unregistered name in one place, a registered one in another. */
  lemma OwnedYetRefused(parse: Parser)
    ensures var ctx := Context(Dispatch(Some("dental-1"), Fields(map["agent" := Str("spa")]), Absent), None, Absent);
            && PreConnect(ctx)
            && OwnsRoom(parse, ["dental"], ctx.job)
            && ResolveAgent(parse, ["dental"], ctx, None) == Rejected(UnknownAgent("spa", FromJobMetadata))
  {
    var ctx := Context(Dispatch(Some("dental-1"), Fields(map["agent" := Str("spa")]), Absent), None, Absent);
    assert Strip("spa") == "spa";
    assert StartsWith("dental-1", ["dental"][0] + "-");
    ChainUnrolled(parse, ["dental"], ctx);
  }

  /** The session's tenant is the admission tenant without its surrounding whitespace. */
  lemma SessionTenantIsStripped(parse: Parser, ctx: Context)
    requires PreConnect(ctx)
    ensures SessionTenant(parse, ctx).Some? ==> SessionTenant(parse, ctx).value == Strip(RequestTenant(parse, ctx.job))
    ensures SessionTenant(parse, ctx).Some? <==> ValidTenantId(Strip(RequestTenant(parse, ctx.job)))
  {
  }

  /**
  Caps and the breaker are looked up under the admission tenant but counted under the session's. The
  two keys are the same exactly when the dispatched value carries no surrounding whitespace.
  */
  lemma TenantKeysAgree(parse: Parser, ctx: Context)
    requires PreConnect(ctx) && SessionTenant(parse, ctx).Some?
    ensures SessionTenant(parse, ctx).value == RequestTenant(parse, ctx.job)
            <==> Strip(RequestTenant(parse, ctx.job)) == RequestTenant(parse, ctx.job)
  {
  }

  lemma PaddedTenantDisagrees(parse: Parser)
    ensures var ctx := Context(Dispatch(None, Fields(map["tenant" := Str(" acme")]), Absent), None, Absent);
            && PreConnect(ctx)
            && RequestTenant(parse, ctx.job) == " acme"
            && SessionTenant(parse, ctx) == Some("acme")
  {
    assert " acme"[1..] == "acme";
    assert Strip(" acme") == "acme";
    assert forall i :: 0 <= i < 4 ==> IdCharacter("acme"[i]);
  }

  // ---------------------------------------------------------------------------------------------
  // Live jobs per agent, in process mode
  // ---------------------------------------------------------------------------------------------

  /** How many of some jobs admission attributes to an agent. */
  function JobsOf(parse: Parser, agents: seq<string>, jobs: seq<Dispatch>, name: string): nat {
    if jobs == [] then 0
    else
      var last := jobs[|jobs| - 1];
      JobsOf(parse, agents, jobs[..|jobs| - 1], name)
      + if RequestAgentName(parse, agents, last) == Some(name) then 1 else 0
  }

  /** The counter the per-agent cap reads: every job under its agent, and no zero entries. */
  method ActiveJobsByAgent(parse: Parser, agents: seq<string>, jobs: seq<Dispatch>) returns (counts: map<string, nat>)
    ensures forall name :: name in counts ==> counts[name] == JobsOf(parse, agents, jobs, name) > 0
    ensures forall name :: name !in counts ==> JobsOf(parse, agents, jobs, name) == 0
  {
    counts := map[];
    for i := 0 to |jobs|
      invariant forall name :: name in counts ==> counts[name] == JobsOf(parse, agents, jobs[..i], name) > 0
      invariant forall name :: name !in counts ==> JobsOf(parse, agents, jobs[..i], name) == 0
    {
      assert jobs[..i + 1][..i] == jobs[..i];
      var name := RequestAgentName(parse, agents, jobs[i]);
      if name.Some? {
        counts := counts[name.value := (if name.value in counts then counts[name.value] else 0) + 1];
      }
    }
    assert jobs[..|jobs|] == jobs;
  }

  // ---------------------------------------------------------------------------------------------
  // The stacked filters
  // ---------------------------------------------------------------------------------------------

  /** The calls a filter makes on the request it was given. */
  datatype Reply = Accept | Reject

  /** The decision under the layers: ownership, the user's own filter, or none at all. */
  datatype Base =
    | NoBase
    | RegisteredRooms
    | UserFilter(suspends: bool, replies: seq<Reply>)  // what it replies before it first suspends, if it does

  datatype Filter =
    | BaseFilter(base: Base)
    | AgentCap(caps: map<string, int>, below: Filter)
    | TenantCap(caps: map<string, int>, below: Filter)
    | Circuit(below: Filter)

  /** What the filters read while deciding: live sessions per agent and tenant, and open breakers. */
  datatype Readings = Readings(byAgent: map<string, int>, byTenant: map<string, int>, rejects: string -> bool)

  predicate AtCap(caps: map<string, int>, active: map<string, int>, key: string) {
    key in caps && (if key in active then active[key] else 0) >= caps[key]
  }

  function Decide(f: Filter, parse: Parser, agents: seq<string>, r: Readings, req: Dispatch): seq<Reply> {
    match f
    case BaseFilter(NoBase) => [Accept]
    case BaseFilter(RegisteredRooms) => if OwnsRoom(parse, agents, req) then [Accept] else [Reject]
    case BaseFilter(UserFilter(_, replies)) => replies
    case AgentCap(caps, below) =>
      var name := RequestAgentName(parse, agents, req);
      if name.Some? && AtCap(caps, r.byAgent, name.value) then [Reject] else Decide(below, parse, agents, r, req)
    case TenantCap(caps, below) =>
      if AtCap(caps, r.byTenant, RequestTenant(parse, req)) then [Reject] else Decide(below, parse, agents, r, req)
    case Circuit(below) =>
      if r.rejects(RequestTenant(parse, req)) then [Reject] else Decide(below, parse, agents, r, req)
  }

  datatype Options = Options(
    base: Base,
    agentCaps: Option<map<string, int>>,
    tenantCaps: Option<map<string, int>>,
    breaker: bool)

  /** The pool's constructor, layer by layer. */
  method BuildFilter(o: Options) returns (f: Filter)
    ensures f == Stack(o)
  {
    f := BaseFilter(o.base);
    if o.agentCaps.Some? {
      f := AgentCap(o.agentCaps.value, f);
    }
    if o.tenantCaps.Some? {
      f := TenantCap(o.tenantCaps.value, f);
    }
    if o.breaker {
      f := Circuit(f);
    }
  }

  function Stack(o: Options): Filter {
    var base := BaseFilter(o.base);
    var capped := if o.agentCaps.Some? then AgentCap(o.agentCaps.value, base) else base;
    var shared := if o.tenantCaps.Some? then TenantCap(o.tenantCaps.value, capped) else capped;
    if o.breaker then Circuit(shared) else shared
  }

  /** Nothing in the layers themselves stands against the job. */
  predicate LayersPass(o: Options, parse: Parser, agents: seq<string>, r: Readings, req: Dispatch) {
    var name := RequestAgentName(parse, agents, req);
    && !(o.breaker && r.rejects(RequestTenant(parse, req)))
    && !(o.tenantCaps.Some? && AtCap(o.tenantCaps.value, r.byTenant, RequestTenant(parse, req)))
    && !(o.agentCaps.Some? && name.Some? && AtCap(o.agentCaps.value, r.byAgent, name.value))
  }

  /**
  A stacked filter rejects, once, when any layer objects, and otherwise replies as its base does; so a
  request gets exactly one reply unless it reaches a user filter that gives none or several.
  */
  lemma StackDecides(o: Options, parse: Parser, agents: seq<string>, r: Readings, req: Dispatch)
    ensures var replies := Decide(Stack(o), parse, agents, r, req);
            var base := Decide(BaseFilter(o.base), parse, agents, r, req);
            && (replies == if LayersPass(o, parse, agents, r, req) then base else [Reject])
            && (|replies| == 1 <==> (LayersPass(o, parse, agents, r, req) && o.base.UserFilter? ==> |o.base.replies| == 1))
  {
    hide RequestAgentName, RequestTenant, OwnsRoom, AtCap;
    var base := BaseFilter(o.base);
    var capped := if o.agentCaps.Some? then AgentCap(o.agentCaps.value, base) else base;
    var shared := if o.tenantCaps.Some? then TenantCap(o.tenantCaps.value, capped) else capped;
    var name := RequestAgentName(parse, agents, req);
    assert Decide(capped, parse, agents, r, req)
           == if o.agentCaps.Some? && name.Some? && AtCap(o.agentCaps.value, r.byAgent, name.value) then [Reject]
              else Decide(base, parse, agents, r, req);
    assert Decide(shared, parse, agents, r, req)
           == if o.tenantCaps.Some? && AtCap(o.tenantCaps.value, r.byTenant, RequestTenant(parse, req)) then [Reject]
              else Decide(capped, parse, agents, r, req);
  }
}
