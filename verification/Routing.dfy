/**
Which agent and which tenant a call belongs to, as the session decides it once the job was accepted
(src/openrtc/routing/, src/openrtc/core/session_view.py, src/openrtc/observability/base_observer.py).

Parsing JSON text is not modelled: a total function `parse`, the same for routing and admission,
says what a text holds.
*/
module Routing {
  import opened Text
  import opened Wrappers

  /** A value inside a metadata mapping: a string, or anything else with the text `str` gives it. */
  datatype Value = Str(text: string) | Other(shown: string)

  type Mapping = map<string, Value>

  /** Raw dispatch metadata: missing, a mapping, JSON text, or a value of no use. */
  datatype Metadata = Absent | Fields(fields: Mapping) | Json(text: string) | Unusable

  datatype Parsed = Malformed | NotAnObject | Object(fields: Mapping)

  type Parser = string -> Parsed

  /** What LiveKit dispatched: the job's own metadata, its room's name and the room's metadata. */
  datatype Dispatch = Dispatch(roomName: Option<string>, jobMetadata: Metadata, roomMetadata: Metadata)

  /** A job context: the dispatch, and the rtc room, which is empty until `connect`. */
  datatype Context = Context(job: Dispatch, rtcRoomName: Option<string>, rtcRoomMetadata: Metadata)

  // ---------------------------------------------------------------------------------------------
  // The neutral view
  // ---------------------------------------------------------------------------------------------

  function ViewRoomName(ctx: Context): string {
    if ctx.job.roomName.Some? && ctx.job.roomName.value != "" then ctx.job.roomName.value
    else if ctx.rtcRoomName.Some? then ctx.rtcRoomName.value
    else ""
  }

  function ViewRoomMetadata(ctx: Context): Metadata {
    if ctx.job.roomMetadata.Absent? then ctx.rtcRoomMetadata else ctx.job.roomMetadata
  }

  /** The rtc room before `connect`: no name and nothing but blank metadata. */
  predicate PreConnect(ctx: Context) {
    && (ctx.rtcRoomName.None? || ctx.rtcRoomName.value == "")
    && (ctx.rtcRoomMetadata.Absent? || (ctx.rtcRoomMetadata.Json? && Strip(ctx.rtcRoomMetadata.text) == ""))
  }

  // ---------------------------------------------------------------------------------------------
  // Agent names in metadata
  // ---------------------------------------------------------------------------------------------

  function NameUnder(m: Mapping, key: string): Option<string> {
    if key in m && m[key].Str? && Strip(m[key].text) != "" then Some(Strip(m[key].text)) else None
  }

  function AgentNameFromMapping(m: Mapping): Option<string> {
    if NameUnder(m, "agent").Some? then NameUnder(m, "agent") else NameUnder(m, "demo")
  }

  function AgentNameFromMetadata(parse: Parser, meta: Metadata): Option<string> {
    match meta
    case Absent => None
    case Unusable => None
    case Fields(m) => AgentNameFromMapping(m)
    case Json(text) =>
      if Strip(text) == "" then None
      else match parse(Strip(text))
        case Object(m) => AgentNameFromMapping(m)
        case _ => None
  }

  /** The first registered name, in registration order, whose `<name>-` prefix the room name carries. */
  function PrefixOwner(agents: seq<string>, roomName: string): (owner: Option<string>)
    ensures owner.Some? ==> owner.value in agents
    decreases |agents|
  {
    if agents == [] then None
    else if StartsWith(roomName, agents[0] + "-") then Some(agents[0])
    else PrefixOwner(agents[1..], roomName)
  }

  // ---------------------------------------------------------------------------------------------
  // The strategy chain
  // ---------------------------------------------------------------------------------------------

  datatype Strategy = FromJobMetadata | FromRoomMetadata | FromRoomPrefix | DefaultFallback

  datatype Refusal =
    | NoAgents
    | UnknownAgent(name: string, via: Strategy)
    | RouterRaised
    | RouterUnknown(name: string)

  datatype Decision = Defer | Pick(name: string) | Refuse(why: Refusal)

  function MetadataDecision(agents: seq<string>, name: Option<string>, via: Strategy): Decision {
    if name.None? then Defer
    else if name.value in agents then Pick(name.value)
    else Refuse(UnknownAgent(name.value, via))
  }

  function Resolve(parse: Parser, agents: seq<string>, ctx: Context, strategy: Strategy): Decision
    requires agents != []
  {
    match strategy
    case FromJobMetadata => MetadataDecision(agents, AgentNameFromMetadata(parse, ctx.job.jobMetadata), strategy)
    case FromRoomMetadata => MetadataDecision(agents, AgentNameFromMetadata(parse, ViewRoomMetadata(ctx)), strategy)
    case FromRoomPrefix =>
      var owner := PrefixOwner(agents, ViewRoomName(ctx));
      if owner.Some? then Pick(owner.value) else Defer
    case DefaultFallback => Pick(agents[0])
  }

  /** The first strategy that does not defer. */
  function FirstDecision(parse: Parser, agents: seq<string>, ctx: Context, chain: seq<Strategy>): (Decision, Strategy)
    requires agents != []
    decreases |chain|
  {
    if chain == [] then (Defer, DefaultFallback)
    else
      var decision := Resolve(parse, agents, ctx, chain[0]);
      if decision.Defer? then FirstDecision(parse, agents, ctx, chain[1..]) else (decision, chain[0])
  }

  const STRATEGIES := [FromJobMetadata, FromRoomMetadata, FromRoomPrefix, DefaultFallback]

  /** What calling a custom router came to. */
  datatype RouterAnswer = Raised | Deferred | Named(name: string)

  datatype Route = Routed(name: string, via: Option<Strategy>) | Rejected(why: Refusal)

  function ResolveAgent(parse: Parser, agents: seq<string>, ctx: Context, router: Option<RouterAnswer>): Route {
    if agents == [] then Rejected(NoAgents)
    else if router == Some(Raised) then Rejected(RouterRaised)
    else if router.Some? && router.value.Named? then
      if router.value.name in agents then Routed(router.value.name, None) else Rejected(RouterUnknown(router.value.name))
    else
      var (decision, via) := FirstDecision(parse, agents, ctx, STRATEGIES);
      match decision
      case Pick(name) => Routed(name, Some(via))
      case Refuse(why) => Rejected(why)
      case Defer => Rejected(NoAgents)
  }

  // ---------------------------------------------------------------------------------------------
  // The tenant
  // ---------------------------------------------------------------------------------------------

  const DEFAULT_TENANT := "default"
  const TENANT_ID_MAX := 128

  function Shown(v: Value): string {
    match v
    case Str(text) => text
    case Other(shown) => shown
  }

  function Coerce(parse: Parser, meta: Metadata): map<string, string> {
    match meta
    case Absent => map[]
    case Unusable => map[]
    case Fields(m) => map key | key in m :: Shown(m[key])
    case Json(text) =>
      if Strip(text) == "" then map[]
      else match parse(Strip(text))
        case Object(m) => map key | key in m :: Shown(m[key])
        case _ => map[]
  }

  /** Room metadata overridden by job metadata. */
  function Merge(parse: Parser, roomMetadata: Metadata, jobMetadata: Metadata): map<string, string> {
    Coerce(parse, roomMetadata) + Coerce(parse, jobMetadata)
  }

  function RawTenant(merged: map<string, string>): string {
    if "tenant" in merged && merged["tenant"] != "" then merged["tenant"] else DEFAULT_TENANT
  }

  predicate IdCharacter(c: char) {
    'A' <= c <= 'Z' || 'a' <= c <= 'z' || '0' <= c <= '9' || c == '_' || c == '-'
  }

  predicate ValidTenantId(id: string) {
    0 < |id| <= TENANT_ID_MAX && forall i :: 0 <= i < |id| ==> IdCharacter(id[i])
  }

  /** The tenant of a session; a malformed id rejects it. */
  function SessionTenant(parse: Parser, ctx: Context): Option<string> {
    var merged := Merge(parse, ViewRoomMetadata(ctx), ctx.job.jobMetadata);
    if "tenant" !in merged || merged["tenant"] == "" then Some(DEFAULT_TENANT)
    else if ValidTenantId(Strip(merged["tenant"])) then Some(Strip(merged["tenant"]))
    else None
  }
}
