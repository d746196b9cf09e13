/**
When a tenant's cap means anything. Admission looks the cap up under the dispatched value
(src/openrtc/routing/request_filter.py, lines 160 to 170), while the session is counted under that value
without its surrounding whitespace (src/openrtc/utils/validation.py, line 102).
*/
module TenantCapLaws {
  import opened Wrappers
  import opened Text
  import opened Routing
  import opened RequestFilter
  import opened SessionRun
  import opened SessionLaws
  import opened CoroutinePool
  import opened Worker
  import opened WorkerLaws
  import opened GaugeLaws
  import opened SoftCapLaws
  import opened Scenarios
  import CircuitBreaker

  /** Which dispatches a worker is ever offered. */
  type Family = Context -> bool

  ghost predicate OnlyOffers(events: seq<Event>, family: Family) {
    forall i :: 0 <= i < |events| && events[i].Offer? ==> family(events[i].ctx)
  }

  /** The dispatch becomes a session of this tenant. */
  predicate SessionOf(w: World, ctx: Context, tenant: string) {
    PreConnect(ctx) && SessionIdentity(w, ctx).Some? && SessionIdentity(w, ctx).value.tenant == tenant
  }

  predicate Unpadded(w: World, ctx: Context) {
    Strip(RequestTenant(w.parse, ctx.job)) == RequestTenant(w.parse, ctx.job)
  }

  /** No layer but the tenant's own cap stands against the dispatch: no agent cap, and no room of another worker. */
  predicate Unobstructed(w: World, ctx: Context, tenant: string) {
    var o, name, raw := w.options, RequestAgentName(w.parse, w.agents, ctx.job), RequestTenant(w.parse, ctx.job);
    && (o.base.RegisteredRooms? ==> OwnsRoom(w.parse, w.agents, ctx.job))
    && (o.agentCaps.Some? && name.Some? ==> name.value !in o.agentCaps.value)
    && (o.tenantCaps.Some? && raw in o.tenantCaps.value ==> raw == tenant)
  }

  /** In every run that is offered nothing else, the tenant's cap is overshot by waiting jobs only. */
  ghost predicate CapHolds(w: World, family: Family, tenant: string)
    requires CapOf(w.options, OfTenant(tenant)).Some?
  {
    forall events, n: nat, k: nat ::
      n <= |events| && OnlyOffers(events, family) && FewWaiting(w, events, OfTenant(tenant), k) ==>
        Demand(After(w, events, n).jobs, OfTenant(tenant)) <= CapOf(w.options, OfTenant(tenant)).value + k
  }

  ghost predicate AllUnpadded(w: World, family: Family, tenant: string) {
    forall ctx :: family(ctx) && SessionOf(w, ctx, tenant) ==> Unpadded(w, ctx)
  }

  // ---------------------------------------------------------------------------------------------
  // One padded dispatch, offered again and again
  // ---------------------------------------------------------------------------------------------

  /** Offered, accepted by the user's filter if there is one, launched and started, one call after the other. */
  function OneAfterAnother(ctx: Context, n: nat): seq<Event>
    decreases n
  {
    if n == 0 then [StartPool]
    else OneAfterAnother(ctx, n - 1) + ([Offer(n - 1, ctx, Some(Accept)), Answer(n - 1, Accept)] + Serve(n - 1))
  }

  /** The first `n` ids are calls of the dispatch, all talking, and the pool takes more. */
  ghost predicate Flooded(w: World, s: State, ctx: Context, n: nat) {
    && s.pool.started && !s.pool.draining && s.breaker == CircuitBreaker.Initial
    && (forall id: nat :: id in s.jobs <==> id < n)
    && forall id :: id in s.jobs ==> s.jobs[id] == Talking(w, CallOf(w, ctx))
  }

  /** What a padded dispatch meets at the gate: nothing. */
  lemma {:induction false} PaddedPasses(w: World, s: State, ctx: Context, tenant: string)
    requires Unobstructed(w, ctx, tenant) && RequestTenant(w.parse, ctx.job) != tenant
    requires !w.options.breaker || !ReadingsOf(s).rejects(RequestTenant(w.parse, ctx.job))
    ensures if MaySuspend(w.options) then HandsOver(w, s, ctx) && !Accepts(w, s, ctx, Some(Accept))
            else Accepts(w, s, ctx, Some(Accept)) && !HandsOver(w, s, ctx)
  {
    hide RequestTenant, RequestAgentName, OwnsRoom;
    assert LayersPass(Asked(w.options, Some(Accept)), w.parse, w.agents, ReadingsOf(s), ctx.job);
    assert LayersPass(Asked(w.options, None), w.parse, w.agents, ReadingsOf(s), ctx.job);
    StackDecides(Asked(w.options, Some(Accept)), w.parse, w.agents, ReadingsOf(s), ctx.job);
    StackDecides(Asked(w.options, None), w.parse, w.agents, ReadingsOf(s), ctx.job);
  }

  lemma {:induction false} OneMore(w: World, s: State, ctx: Context, tenant: string, n: nat)
    requires SessionOf(w, ctx, tenant) && Unobstructed(w, ctx, tenant) && RequestTenant(w.parse, ctx.job) != tenant
    requires Flooded(w, s, ctx, n)
    ensures Flooded(w, Then(w, s, [Offer(n, ctx, Some(Accept)), Answer(n, Accept)] + Serve(n), 4), ctx, n + 1)
  {
    hide Step, Enabled, Feed, Judge, Verdict, PreConnect, SessionIdentity, RequestTenant, RequestAgentName, Talking;
    hide Unobstructed;
    PaddedPasses(w, s, ctx, tenant);
    var all := [Offer(n, ctx, Some(Accept)), Answer(n, Accept)] + Serve(n);
    var a := Turn(w, s, Offer(n, ctx, Some(Accept)));
    var b := Turn(w, a, Answer(n, Accept));
    assert n !in s.jobs;
    assert a.pool == s.pool && a.breaker == s.breaker;
    assert b.jobs == s.jobs[n := Waiting(CallOf(w, ctx))] && b.pool == s.pool && b.breaker == s.breaker;
    ServeCall(w, b, n);
    ThenAfterTwo(w, s, Offer(n, ctx, Some(Accept)), Answer(n, Accept), Serve(n));
  }

  lemma {:induction false} ThenAfterTwo(w: World, s: State, first: Event, second: Event, rest: seq<Event>)
    requires |rest| == 2
    ensures Then(w, s, [first, second] + rest, 4) == Then(w, Turn(w, Turn(w, s, first), second), rest, 2)
  {
  }

  lemma {:induction false} Unflooded(w: World, ctx: Context)
    ensures Flooded(w, After(w, [StartPool], 1), ctx, 0)
  {
  }

  lemma {:induction false} FloodState(w: World, ctx: Context, tenant: string, n: nat)
    requires SessionOf(w, ctx, tenant) && Unobstructed(w, ctx, tenant) && RequestTenant(w.parse, ctx.job) != tenant
    ensures var events := OneAfterAnother(ctx, n); Flooded(w, After(w, events, |events|), ctx, n)
    decreases n
  {
    hide Turn, SessionOf, Unobstructed, Flooded;
    if n == 0 {
      Unflooded(w, ctx);
    } else {
      FloodState(w, ctx, tenant, n - 1);
      var events := OneAfterAnother(ctx, n - 1);
      OneMore(w, After(w, events, |events|), ctx, tenant, n - 1);
      AfterMore(w, events, [Offer(n - 1, ctx, Some(Accept)), Answer(n - 1, Accept)] + Serve(n - 1), 4);
    }
  }

  lemma {:induction false} FloodOffers(ctx: Context, family: Family, n: nat)
    requires family(ctx)
    ensures OnlyOffers(OneAfterAnother(ctx, n), family)
    ensures forall i :: 0 <= i < |OneAfterAnother(ctx, n)| && OneAfterAnother(ctx, n)[i].Offer? ==>
              OneAfterAnother(ctx, n)[i].ctx == ctx
    decreases n
  {
    if n > 0 {
      FloodOffers(ctx, family, n - 1);
    }
  }

  /** A padded dispatch, repeated, fills the worker with live sessions of the tenant, whatever its cap. */
  lemma {:induction false} PaddedTenantFloods(w: World, ctx: Context, tenant: string, n: nat)
    requires SessionOf(w, ctx, tenant) && Unobstructed(w, ctx, tenant) && !Unpadded(w, ctx)
    ensures var events := OneAfterAnother(ctx, n);
            Count(After(w, events, |events|).jobs, LiveUsing(OfTenant(tenant))) == n
  {
    hide After, Talking, In, Unobstructed, SessionIdentity, RequestTenant, PreConnect;
    KeyIsStripped(w, ctx, tenant);
    FloodState(w, ctx, tenant, n);
    var s := After(w, OneAfterAnother(ctx, n), |OneAfterAnother(ctx, n)|);
    TalkingIsLive(w, CallOf(w, ctx), OfTenant(tenant));
    BelowMeans(n);
    assert Members(s.jobs, LiveUsing(OfTenant(tenant))) == Below(n);
  }

  /** Nothing is ever filed under the tenant, so nothing ever waits for it. */
  lemma {:induction false} PaddedNeverWaits(w: World, events: seq<Event>, ctx: Context, tenant: string)
    requires forall i :: 0 <= i < |events| && events[i].Offer? ==> events[i].ctx == ctx
    requires RequestTenant(w.parse, ctx.job) != tenant
    ensures FewWaiting(w, events, OfTenant(tenant), 0)
  {
  }

  lemma {:induction false} KeyIsStripped(w: World, ctx: Context, tenant: string)
    requires SessionOf(w, ctx, tenant)
    ensures RequestTenant(w.parse, ctx.job) == tenant <==> Unpadded(w, ctx)
  {
  }

  lemma {:induction false} UnpaddedIsFaithful(w: World, events: seq<Event>, family: Family, tenant: string)
    requires OnlyOffers(events, family) && AllUnpadded(w, family, tenant)
    ensures OffersFaithful(w, events, OfTenant(tenant))
  {
    hide RequestTenant, Unpadded, PreConnect, SessionIdentity;
    forall i | 0 <= i < |events| && events[i].Offer? && PreConnect(events[i].ctx)
      ensures Faithful(CallOf(w, events[i].ctx), OfTenant(tenant))
    {
      if SessionOf(w, events[i].ctx, tenant) {
        KeyIsStripped(w, events[i].ctx, tenant);
      }
    }
  }

  /**
  A tenant's cap bounds the runs over a family of dispatches exactly when every dispatch of the family that
  becomes a session of the tenant is written the way the session counts it. One padded dispatch breaks the
  bound for every cap, unless something else stands in its way.
  */
  lemma {:induction false} TenantCapHoldsExactly(w: World, family: Family, tenant: string)
    requires CapOf(w.options, OfTenant(tenant)).Some? && CapOf(w.options, OfTenant(tenant)).value > 0
    requires forall ctx :: family(ctx) && SessionOf(w, ctx, tenant) ==> Unobstructed(w, ctx, tenant)
    ensures CapHolds(w, family, tenant) <==> AllUnpadded(w, family, tenant)
  {
    hide Turn, After, FewWaiting, OnlyOffers, SessionOf, Unobstructed, Unpadded, CapOf, RequestTenant, Count, In;
    if AllUnpadded(w, family, tenant) {
      forall events, n: nat, k: nat
        | n <= |events| && OnlyOffers(events, family) && FewWaiting(w, events, OfTenant(tenant), k)
        ensures Demand(After(w, events, n).jobs, OfTenant(tenant)) <= CapOf(w.options, OfTenant(tenant)).value + k
      {
        UnpaddedIsFaithful(w, events, family, tenant);
        SoftCapBound(w, events, n, OfTenant(tenant), k);
      }
    } else {
      var ctx :| family(ctx) && SessionOf(w, ctx, tenant) && !Unpadded(w, ctx);
      var cap := CapOf(w.options, OfTenant(tenant)).value;
      var events := OneAfterAnother(ctx, cap + 1);
      KeyIsStripped(w, ctx, tenant);
      PaddedTenantFloods(w, ctx, tenant, cap + 1);
      FloodOffers(ctx, family, cap + 1);
      PaddedNeverWaits(w, events, ctx, tenant);
      assert !(Demand(After(w, events, |events|).jobs, OfTenant(tenant)) <= cap + 0);
    }
  }
}
