/**
Whom a dispatch belongs to, read off the dispatch itself: the agent its metadata or room name points to and the
tenant its metadata names (src/openrtc/routing/, src/openrtc/observability/base_observer.py).
*/
module RoutingLaws {
  import opened Text
  import opened Routing
  import opened RequestFilter
  import opened Wrappers

  // ---------------------------------------------------------------------------------------------
  // Metadata
  // ---------------------------------------------------------------------------------------------

  /** The metadata holds this mapping: as it is, or as JSON text once the whitespace around it is gone. */
  predicate Carries(parse: Parser, meta: Metadata, m: Mapping) {
    meta == Fields(m) || (meta.Json? && Strip(meta.text) != "" && parse(Strip(meta.text)) == Object(m))
  }

  /** Under this key stands a string that is the name, but for whitespace around it. */
  predicate Says(m: Mapping, key: string, name: string) {
    key in m && m[key].Str? && Strip(m[key].text) == name && name != ""
  }

  /** The metadata names this agent: under `agent`, or under `demo` if it names none under `agent`. */
  ghost predicate Names(parse: Parser, meta: Metadata, name: string) {
    exists m :: Carries(parse, meta, m) &&
                (Says(m, "agent", name) || (Says(m, "demo", name) && forall other :: !Says(m, "agent", other)))
  }

  lemma {:induction false} MetadataNames(parse: Parser, meta: Metadata, name: string)
    ensures AgentNameFromMetadata(parse, meta) == Some(name) <==> Names(parse, meta, name)
  {
    if meta.Fields? {
      MappingNames(meta.fields, name);
      assert Carries(parse, meta, meta.fields);
    } else if meta.Json? && Strip(meta.text) != "" && parse(Strip(meta.text)).Object? {
      MappingNames(parse(Strip(meta.text)).fields, name);
      assert Carries(parse, meta, parse(Strip(meta.text)).fields);
    }
  }

  lemma {:induction false} MappingNames(m: Mapping, name: string)
    ensures AgentNameFromMapping(m) == Some(name)
            <==> Says(m, "agent", name) || (Says(m, "demo", name) && forall other :: !Says(m, "agent", other))
  {
    hide Strip;
    assert NameUnder(m, "agent").Some? ==> Says(m, "agent", NameUnder(m, "agent").value);
  }

  // ---------------------------------------------------------------------------------------------
  // The room's name
  // ---------------------------------------------------------------------------------------------

  /** The agent at this place is the first whose name and a dash start the room's name. */
  predicate FirstPrefix(agents: seq<string>, roomName: string, i: int) {
    && 0 <= i < |agents| && StartsWith(roomName, agents[i] + "-")
    && forall k :: 0 <= k < i ==> !StartsWith(roomName, agents[k] + "-")
  }

  lemma {:induction false} FirstPrefixFound(agents: seq<string>, roomName: string) returns (i: int)
    ensures PrefixOwner(agents, roomName).Some? ==>
              FirstPrefix(agents, roomName, i) && PrefixOwner(agents, roomName).value == agents[i]
    decreases |agents|
  {
    i := 0;
    if agents != [] && !StartsWith(roomName, agents[0] + "-") {
      var later := FirstPrefixFound(agents[1..], roomName);
      i := later + 1;
      assert forall k :: 1 <= k < |agents| ==> agents[k] == agents[1..][k - 1];
    }
  }

  /** The owner by prefix is the first agent, in registration order, whose prefix the room name carries. */
  lemma {:induction false} PrefixOwnerExactly(agents: seq<string>, roomName: string, name: string)
    ensures PrefixOwner(agents, roomName) == Some(name)
            <==> exists i :: FirstPrefix(agents, roomName, i) && agents[i] == name
  {
    hide PrefixOwner;
    var i := FirstPrefixFound(agents, roomName);
    PrefixOwnerExists(agents, roomName);
  }

  // ---------------------------------------------------------------------------------------------
  // Routing and admission
  // ---------------------------------------------------------------------------------------------

  ghost predicate NamesNobody(parse: Parser, meta: Metadata) {
    forall name :: !Names(parse, meta, name)
  }

  ghost predicate NoPrefix(agents: seq<string>, roomName: string) {
    forall i :: 0 <= i < |agents| ==> !StartsWith(roomName, agents[i] + "-")
  }

  lemma {:induction false} NamesNobodyMeans(parse: Parser, meta: Metadata)
    ensures NamesNobody(parse, meta) <==> AgentNameFromMetadata(parse, meta).None?
  {
    hide AgentNameFromMetadata, Names;
    if AgentNameFromMetadata(parse, meta).Some? {
      MetadataNames(parse, meta, AgentNameFromMetadata(parse, meta).value);
    }
    forall name | Names(parse, meta, name) ensures AgentNameFromMetadata(parse, meta).Some? {
      MetadataNames(parse, meta, name);
    }
  }

  lemma {:induction false} PrefixOf(agents: seq<string>, roomName: string)
    ensures NoPrefix(agents, roomName) <==> PrefixOwner(agents, roomName).None?
    ensures forall i :: FirstPrefix(agents, roomName, i) ==> PrefixOwner(agents, roomName) == Some(agents[i])
  {
    hide PrefixOwner;
    PrefixOwnerExists(agents, roomName);
    forall i | FirstPrefix(agents, roomName, i) ensures PrefixOwner(agents, roomName) == Some(agents[i]) {
      PrefixOwnerExactly(agents, roomName, agents[i]);
    }
  }

  /** A named agent gets the call if it is registered; otherwise the session is refused. */
  function NamedRoute(agents: seq<string>, name: string, via: Strategy): Route {
    if name in agents then Routed(name, Some(via)) else Rejected(UnknownAgent(name, via))
  }

  /**
  Where routing sends a call, whatever the registry, the dispatch and the router: to the router's choice, to whom
  the job's metadata names, to whom the room's names, to the first agent whose prefix the room's name carries, or to
  the first one registered. The first of these that speaks decides, and an unregistered name is refused. What the
  dispatch does not say of the room is read off the room itself.
  */
  lemma {:induction false} RoutesExactly(parse: Parser, agents: seq<string>, ctx: Context, router: Option<RouterAnswer>)
    ensures var route := ResolveAgent(parse, agents, ctx, router);
            var job := ctx.job.jobMetadata;
            var room := if ctx.job.roomMetadata != Absent then ctx.job.roomMetadata else ctx.rtcRoomMetadata;
            var name := if ctx.job.roomName.Some? && |ctx.job.roomName.value| > 0 then ctx.job.roomName.value
                        else if ctx.rtcRoomName.Some? then ctx.rtcRoomName.value else "";
            if agents == [] then route == Rejected(NoAgents)
            else if router == Some(Raised) then route == Rejected(RouterRaised)
            else if router.Some? && router.value.Named? then
              route == if router.value.name in agents then Routed(router.value.name, None)
                       else Rejected(RouterUnknown(router.value.name))
            else
              && (forall a :: Names(parse, job, a) ==> route == NamedRoute(agents, a, FromJobMetadata))
              && (NamesNobody(parse, job) ==>
                    forall a :: Names(parse, room, a) ==> route == NamedRoute(agents, a, FromRoomMetadata))
              && (NamesNobody(parse, job) && NamesNobody(parse, room) ==>
                    && (forall i :: FirstPrefix(agents, name, i) ==> route == Routed(agents[i], Some(FromRoomPrefix)))
                    && (NoPrefix(agents, name) ==> route == Routed(agents[0], Some(DefaultFallback))))
  {
    hide AgentNameFromMetadata, PrefixOwner, Names, NamesNobody, FirstPrefix, NoPrefix, FirstDecision;
    var job, room, name := ctx.job.jobMetadata, ViewRoomMetadata(ctx), ViewRoomName(ctx);
    if agents != [] {
      ChainUnrolled(parse, agents, ctx);
    }
    forall a ensures Names(parse, job, a) <==> AgentNameFromMetadata(parse, job) == Some(a) {
      MetadataNames(parse, job, a);
    }
    forall a ensures Names(parse, room, a) <==> AgentNameFromMetadata(parse, room) == Some(a) {
      MetadataNames(parse, room, a);
    }
    NamesNobodyMeans(parse, job);
    NamesNobodyMeans(parse, room);
    PrefixOf(agents, name);
  }

  /** The metadata names an agent that is registered. */
  ghost predicate Claims(parse: Parser, agents: seq<string>, meta: Metadata, name: string) {
    name in agents && Names(parse, meta, name)
  }

  /**
  Whom admission files a job under: the first registered agent the job's metadata, the room's or the prefix of its
  name points to, and the first one registered when none does. Unregistered names are passed over.
  */
  lemma {:induction false} AttributesExactly(parse: Parser, agents: seq<string>, req: Dispatch)
    requires agents != []
    ensures var who := RequestAgentName(parse, agents, req);
            var name := if req.roomName.Some? then req.roomName.value else "";
            && (forall a :: Claims(parse, agents, req.jobMetadata, a) ==> who == Some(a))
            && ((forall a :: !Claims(parse, agents, req.jobMetadata, a)) ==>
                  && (forall a :: Claims(parse, agents, req.roomMetadata, a) ==> who == Some(a))
                  && ((forall a :: !Claims(parse, agents, req.roomMetadata, a)) ==>
                        && (forall i :: FirstPrefix(agents, name, i) ==> who == Some(agents[i]))
                        && (NoPrefix(agents, name) ==> who == Some(agents[0]))))
  {
    hide AgentNameFromMetadata, PrefixOwner, Names, FirstPrefix, NoPrefix;
    var job, room, name := req.jobMetadata, req.roomMetadata, if req.roomName.Some? then req.roomName.value else "";
    forall a ensures Claims(parse, agents, job, a) <==> Registered(agents, AgentNameFromMetadata(parse, job)) == Some(a) {
      MetadataNames(parse, job, a);
    }
    forall a ensures Claims(parse, agents, room, a) <==> Registered(agents, AgentNameFromMetadata(parse, room)) == Some(a) {
      MetadataNames(parse, room, a);
    }
    PrefixOf(agents, name);
    NothingStartsEmpty(agents);
  }

  // ---------------------------------------------------------------------------------------------
  // The tenant
  // ---------------------------------------------------------------------------------------------

  /** The metadata holds this text, or the text of this value, under `tenant`. */
  ghost predicate SaysTenant(parse: Parser, meta: Metadata, text: string) {
    exists m :: Carries(parse, meta, m) && "tenant" in m && Shown(m["tenant"]) == text
  }

  lemma {:induction false} CoercesTenant(parse: Parser, meta: Metadata, text: string)
    ensures SaysTenant(parse, meta, text)
            <==> "tenant" in Coerce(parse, meta) && Coerce(parse, meta)["tenant"] == text
  {
    hide Strip;
    if meta.Fields? {
      assert Carries(parse, meta, meta.fields);
    } else if meta.Json? && Strip(meta.text) != "" && parse(Strip(meta.text)).Object? {
      assert Carries(parse, meta, parse(Strip(meta.text)).fields);
    }
  }

  /** What admission takes for the tenant: the job's, else the room's, and the default for an empty one or none. */
  lemma {:induction false} TenantExactly(parse: Parser, req: Dispatch)
    ensures var tenant := RequestTenant(parse, req);
            && (forall x :: SaysTenant(parse, req.jobMetadata, x) ==> tenant == if x == "" then DEFAULT_TENANT else x)
            && ((forall x :: !SaysTenant(parse, req.jobMetadata, x)) ==>
                  && (forall x :: SaysTenant(parse, req.roomMetadata, x) ==>
                        tenant == if x == "" then DEFAULT_TENANT else x)
                  && ((forall x :: !SaysTenant(parse, req.roomMetadata, x)) ==> tenant == DEFAULT_TENANT))
  {
    hide SaysTenant, Coerce;
    var job, room := Coerce(parse, req.jobMetadata), Coerce(parse, req.roomMetadata);
    forall x ensures SaysTenant(parse, req.jobMetadata, x) <==> "tenant" in job && job["tenant"] == x {
      CoercesTenant(parse, req.jobMetadata, x);
    }
    forall x ensures SaysTenant(parse, req.roomMetadata, x) <==> "tenant" in room && room["tenant"] == x {
      CoercesTenant(parse, req.roomMetadata, x);
    }
    assert "tenant" in job ==> SaysTenant(parse, req.jobMetadata, job["tenant"]);
    assert "tenant" in room ==> SaysTenant(parse, req.roomMetadata, room["tenant"]);
  }

  /** The ASCII codes of dash, digits, capitals, underscore and small letters. */
  predicate IdCode(n: int) {
    n == 0x2d || 0x30 <= n < 0x3a || 0x41 <= n < 0x5b || n == 0x5f || 0x61 <= n < 0x7b
  }

  /** Whose session it is: rejected unless the admission tenant, stripped, has 1 to 128 of these characters and no others. */
  lemma {:induction false} SessionTenantExactly(parse: Parser, ctx: Context)
    requires PreConnect(ctx)
    ensures var id := Strip(RequestTenant(parse, ctx.job));
            SessionTenant(parse, ctx)
            == if 1 <= |id| < 129 && (forall i :: 0 <= i < |id| ==> IdCode(id[i] as int)) then Some(id) else None
  {
    hide RequestTenant, Strip, SessionTenant;
    SessionTenantIsStripped(parse, ctx);
    var id := Strip(RequestTenant(parse, ctx.job));
    assert forall i :: 0 <= i < |id| ==> (IdCode(id[i] as int) <==> IdCharacter(id[i]));
  }
}
