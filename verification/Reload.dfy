/**
Hot reload (src/openrtc/reload/): re-importing an edited agent module with rollback, swapping the registered
class, and moving the live sessions of that agent to it without losing their conversation.
*/
module Reload {
  import opened Wrappers
  import FileWatcher

  /** A class object: importing a file again makes another one, with the same name perhaps. */
  datatype AgentClass = AgentClass(name: string, identity: nat)

  datatype Agent = Agent(cls: AgentClass, chat: seq<string>)

  /** A live session as the registry files it. */
  datatype Live = Live(agentName: string, agent: Agent)

  // ---------------------------------------------------------------------------------------------
  // Re-importing a module (module_reloader.py)
  // ---------------------------------------------------------------------------------------------

  datatype Module = Module(identity: nat)

  /** sys.modules, in which an entry may also be None. */
  type Table = map<string, Option<Module>>

  datatype Value = Other | BaseAgent | AgentSubclass(cls: AgentClass, isLocal: bool)

  datatype Binding = Binding(name: string, value: Value)

  /** How running the module's code ended; Exits is an exception such as SystemExit that is no Exception. */
  datatype Ending = Finished(bindings: seq<Binding>) | Raised | Exits

  /** What the file and its code do when a reload is tried. */
  datatype Import =
    | Unreadable
    | Undecodable
    | Malformed
    | NoSpec
    | Executed(loaded: Module, writes: Table, drops: set<string>, ending: Ending)

  datatype Result = Swapped(cls: AgentClass) | Failed | Escaped

  function Bound(bindings: seq<Binding>, name: string): Option<Value>
    decreases |bindings|
  {
    if bindings == [] then None
    else if bindings[0].name == name then Some(bindings[0].value)
    else Bound(bindings[1..], name)
  }

  function FirstLocal(bindings: seq<Binding>): (r: Option<AgentClass>)
    ensures r.Some? <==> exists i :: 0 <= i < |bindings| && bindings[i].value.AgentSubclass? && bindings[i].value.isLocal
    ensures r.Some? ==> exists i :: 0 <= i < |bindings| && bindings[i].value == AgentSubclass(r.value, true)
    decreases |bindings|
  {
    if bindings == [] then None
    else if bindings[0].value.AgentSubclass? && bindings[0].value.isLocal then
      assert bindings[0].value == AgentSubclass(bindings[0].value.cls, true);
      Some(bindings[0].value.cls)
    else
      var r := FirstLocal(bindings[1..]);
      assert forall i :: 0 <= i < |bindings| - 1 ==> bindings[1..][i] == bindings[i + 1];
      r
  }

  /** The namesake of the current class if it is an agent class, else the first one the module defines. */
  function SelectAgentClass(bindings: seq<Binding>, current: AgentClass): Option<AgentClass> {
    var candidate := Bound(bindings, current.name);
    if candidate.Some? && candidate.value.AgentSubclass? then Some(candidate.value.cls) else FirstLocal(bindings)
  }

  /** A module's namespace binds each name once. */
  ghost predicate OnceEach(bindings: seq<Binding>) {
    forall i, k :: 0 <= i < k < |bindings| ==> bindings[i].name != bindings[k].name
  }

  /** An agent class bound to this name, wherever it was defined. */
  predicate Namesake(bindings: seq<Binding>, name: string, i: int) {
    0 <= i < |bindings| && bindings[i].name == name && bindings[i].value.AgentSubclass?
  }

  /** An agent class the module defines itself. */
  predicate Local(bindings: seq<Binding>, i: int) {
    0 <= i < |bindings| && bindings[i].value.AgentSubclass? && bindings[i].value.isLocal
  }

  predicate LeastLocal(bindings: seq<Binding>, i: int) {
    Local(bindings, i) && forall k :: 0 <= k < i ==> !Local(bindings, k)
  }

  /**
  What a reload of a module that ran to its end comes to: the class takes over that is bound to the current one's
  name; without such a class the first the module defines; and without that too the reload fails.
  */
  ghost predicate PicksClass(bindings: seq<Binding>, current: AgentClass, r: Result) {
    var named := exists i :: Namesake(bindings, current.name, i);
    && (forall i :: Namesake(bindings, current.name, i) ==> r == Swapped(bindings[i].value.cls))
    && (!named ==> forall i :: LeastLocal(bindings, i) ==> r == Swapped(bindings[i].value.cls))
    && (r == Failed <==> !named && forall i :: !Local(bindings, i))
    && r != Escaped
  }

  lemma {:induction false} BoundExactly(bindings: seq<Binding>, name: string)
    requires OnceEach(bindings)
    ensures forall i :: 0 <= i < |bindings| && bindings[i].name == name ==> Bound(bindings, name) == Some(bindings[i].value)
    ensures Bound(bindings, name).Some? ==>
              exists i :: 0 <= i < |bindings| && bindings[i] == Binding(name, Bound(bindings, name).value)
    decreases |bindings|
  {
    if bindings != [] {
      BoundExactly(bindings[1..], name);
      assert forall i :: 1 <= i < |bindings| ==> bindings[i] == bindings[1..][i - 1];
      assert bindings[0].name == name ==> bindings[0] == Binding(name, bindings[0].value);
    }
  }

  lemma {:induction false} FirstLocalExactly(bindings: seq<Binding>) returns (i: int)
    ensures FirstLocal(bindings).Some? ==>
              LeastLocal(bindings, i) && FirstLocal(bindings).value == bindings[i].value.cls
    ensures FirstLocal(bindings).None? ==> forall k :: !Local(bindings, k)
    decreases |bindings|
  {
    i := 0;
    if bindings != [] && !Local(bindings, 0) {
      var later := FirstLocalExactly(bindings[1..]);
      i := later + 1;
      assert forall k :: 1 <= k < |bindings| ==> bindings[k] == bindings[1..][k - 1];
      forall k | FirstLocal(bindings).None? ensures !Local(bindings, k) {
        assert k > 0 ==> !Local(bindings[1..], k - 1);
      }
      forall k | FirstLocal(bindings).Some? && 0 <= k < i ensures !Local(bindings, k) {
        assert k > 0 ==> !Local(bindings[1..], k - 1);
      }
    }
  }

  lemma {:induction false} SelectionExactly(bindings: seq<Binding>, current: AgentClass)
    requires OnceEach(bindings)
    ensures var cls := SelectAgentClass(bindings, current);
            PicksClass(bindings, current, if cls.Some? then Swapped(cls.value) else Failed)
  {
    hide Bound, FirstLocal;
    BoundExactly(bindings, current.name);
    var i := FirstLocalExactly(bindings);
    var named := Bound(bindings, current.name);
    if named.Some? && named.value.AgentSubclass? {
      var k :| 0 <= k < |bindings| && bindings[k] == Binding(current.name, named.value);
      assert Namesake(bindings, current.name, k);
    } else {
      assert forall k :: !Namesake(bindings, current.name, k);
      assert FirstLocal(bindings).Some? ==> Local(bindings, i);
      assert forall k :: LeastLocal(bindings, k) ==> k == i;
    }
  }

  function Outcome(file: Import, current: AgentClass): Result {
    match file
    case Undecodable => Escaped
    case Executed(_, _, _, Exits) => Escaped
    case Executed(_, _, _, Finished(bindings)) =>
      var cls := SelectAgentClass(bindings, current);
      if cls.Some? then Swapped(cls.value) else Failed
    case _ => Failed
  }

  /** The module table as the code left it. */
  function Ran(table: Table, name: string, file: Import): Table
    requires file.Executed?
  {
    table[name := Some(file.loaded)] - file.drops + file.writes
  }

  function TableAfter(table: Table, name: string, file: Import, current: AgentClass): Table {
    if !file.Executed? then table
    else if !Outcome(file, current).Failed? then Ran(table, name, file)
    else if name in table && table[name].Some? then Ran(table, name, file)[name := table[name]]
    else Ran(table, name, file) - {name}
  }

  /** The code left every entry but its own as it found it. */
  predicate LeavesOthers(table: Table, name: string, file: Import) {
    file.Executed? ==>
      && (forall k :: k in file.writes && k != name ==> k in table && table[k] == file.writes[k])
      && forall k :: k in file.drops && k != name && k !in file.writes ==> k !in table
  }

  /**
  The rollback of a failed reload restores the module table exactly when the code imported or removed nothing
  else and its own entry was not the None that blocks an import.
  */
  lemma {:induction false} RollbackExactly(table: Table, name: string, file: Import, current: AgentClass)
    requires Outcome(file, current).Failed?
    ensures TableAfter(table, name, file, current) == table
            <==> LeavesOthers(table, name, file) && (file.Executed? && name in table ==> table[name].Some?)
  {
  }

  /** The code itself put its own entry back as it was. */
  predicate RestoresOwn(table: Table, name: string, file: Import)
    requires file.Executed?
  {
    if name in file.writes then name in table && table[name] == file.writes[name]
    else name in file.drops && name !in table
  }

  /**
  Code that ends the process is not rolled back: the module table is as it was exactly when the code touched no
  other entry and put its own back by itself. Otherwise the half-run module is what the next import finds.
  */
  lemma {:induction false} ExitKeepsTableExactly(table: Table, name: string, file: Import, current: AgentClass)
    requires file.Executed? && file.ending.Exits?
    requires name in table ==> table[name] != Some(file.loaded)  // the module object is a new one
    ensures Outcome(file, current) == Escaped
    ensures TableAfter(table, name, file, current) == table
            <==> LeavesOthers(table, name, file) && RestoresOwn(table, name, file)
    ensures name !in file.writes && name !in file.drops ==>
              name in TableAfter(table, name, file, current)
              && TableAfter(table, name, file, current)[name] == Some(file.loaded)
  {
  }

  class ModuleTable {
    var entries: Table

    method ReloadAgentModule(name: string, current: AgentClass, file: Import) returns (r: Result)
      modifies this
      ensures r == Outcome(file, current)
      ensures file.Executed? && file.ending.Finished? && OnceEach(file.ending.bindings) ==>
                PicksClass(file.ending.bindings, current, r)
      ensures file.Unreadable? || file.Malformed? || file.NoSpec? || (file.Executed? && file.ending.Raised?) ==> r == Failed
      ensures file.Undecodable? || (file.Executed? && file.ending.Exits?) ==> r == Escaped
      ensures entries == TableAfter(old(entries), name, file, current)
    {
      if file.Unreadable? || file.Malformed? || file.NoSpec? {
        return Failed;
      }
      if file.Undecodable? {
        return Escaped;
      }
      var before := if name in entries then entries[name] else None;
      entries := entries[name := Some(file.loaded)];
      entries := entries - file.drops + file.writes;
      var cls := None;
      match file.ending {
        case Exits => {
          return Escaped;
        }
        case Raised => {
        }
        case Finished(bindings) => {
          if OnceEach(bindings) {
            SelectionExactly(bindings, current);
          }
          cls := SelectAgentClass(bindings, current);
        }
      }
      if cls.None? {
        if before.Some? {
          entries := entries[name := before];
        } else {
          entries := entries - {name};
        }
        return Failed;
      }
      return Swapped(cls.value);
    }
  }

  // ---------------------------------------------------------------------------------------------
  // Live sessions and the rebind (session_registry.py, rebind.py)
  // ---------------------------------------------------------------------------------------------

  class AgentConfig {
    const name: string
    const sourcePath: Option<string>
    var agentCls: AgentClass

    constructor (name: string, sourcePath: Option<string>, agentCls: AgentClass)
      ensures this.name == name && this.sourcePath == sourcePath && this.agentCls == agentCls
    {
      this.name, this.sourcePath, this.agentCls := name, sourcePath, agentCls;
    }
  }

  class AgentSession {
    const job: string
    var agent: Agent

    constructor (job: string, agent: Agent)
      ensures this.job == job && this.agent == agent
    {
      this.job, this.agent := job, agent;
    }
  }

  datatype Entry = Entry(agentName: string, session: AgentSession)

  function Remove(order: seq<string>, job: string): seq<string>
    decreases |order|
  {
    if order == [] then []
    else if order[0] == job then order[1..]
    else [order[0]] + Remove(order[1..], job)
  }

  ghost predicate Distinct(order: seq<string>) {
    forall i, k :: 0 <= i < k < |order| ==> order[i] != order[k]
  }

  lemma {:induction false} RemoveMeans(order: seq<string>, job: string)
    requires Distinct(order)
    ensures Distinct(Remove(order, job))
    ensures forall j :: j in Remove(order, job) <==> j in order && j != job
    decreases |order|
  {
    if order != [] {
      var rest := order[1..];
      assert order == [order[0]] + rest;
      assert Distinct(rest);
      assert order[0] !in rest;
      RemoveMeans(rest, job);
    }
  }

  class LiveSessionRegistry {
    var byJob: map<string, Entry>
    var order: seq<string>  // the insertion order of the keys

    ghost predicate Valid()
      reads this
    {
      && (forall j :: j in order <==> j in byJob)
      && Distinct(order)
      && forall j :: j in byJob ==> byJob[j].session.job == j
    }

    ghost function Sessions(): set<AgentSession>
      reads this
    {
      set j | j in byJob :: byJob[j].session
    }

    ghost function Lives(): map<string, Live>
      reads this, Sessions()
    {
      map j | j in byJob :: Live(byJob[j].agentName, byJob[j].session.agent)
    }

    constructor ()
      ensures Valid() && Lives() == map[] && order == []
    {
      byJob, order := map[], [];
    }

    method OnSessionStart(job: string, agentName: string, session: AgentSession)
      requires Valid() && session.job == job
      modifies this
      ensures Valid()
      ensures Lives() == old(Lives())[job := Live(agentName, session.agent)]
      ensures order == if job in old(byJob) then old(order) else old(order) + [job]
    {
      if job !in byJob {
        order := order + [job];
      }
      byJob := byJob[job := Entry(agentName, session)];
    }

    method OnSessionEnd(job: string)
      requires Valid()
      modifies this
      ensures Valid()
      ensures Lives() == old(Lives()) - {job} && order == Remove(old(order), job)
    {
      RemoveMeans(order, job);
      order := Remove(order, job);
      byJob := byJob - {job};
    }

    method SessionsFor(agentName: string) returns (found: seq<AgentSession>)
      requires Valid()
      ensures forall k :: 0 <= k < |found| ==>
                found[k].job in byJob && byJob[found[k].job] == Entry(agentName, found[k])
      ensures JobsOf(found) == OfAgent(order, Lives(), agentName)
    {
      hide OfAgent, JobsOf, Distinct;
      found := [];
      NobodyFound(Lives(), agentName);
      for i := 0 to |order|
        invariant forall k :: 0 <= k < |found| ==>
                    found[k].job in byJob && byJob[found[k].job] == Entry(agentName, found[k])
        invariant JobsOf(found) == OfAgent(order[..i], Lives(), agentName)
      {
        assert order[..i + 1] == order[..i] + [order[i]];
        OneMoreJob(order[..i], order[i], Lives(), agentName);
        OneMoreFound(found, byJob[order[i]].session);
        var entry := byJob[order[i]];
        if entry.agentName == agentName {
          found := found + [entry.session];
        }
      }
      assert order[..|order|] == order;
    }
  }

  lemma {:induction false} NobodyFound(live: map<string, Live>, agentName: string)
    ensures JobsOf([]) == OfAgent([], live, agentName) && forall order: seq<string> :: order[..0] == []
  {
  }

  lemma {:induction false} OneMoreJob(order: seq<string>, job: string, live: map<string, Live>, agentName: string)
    ensures OfAgent(order + [job], live, agentName)
            == OfAgent(order, live, agentName) + if job in live && live[job].agentName == agentName then [job] else []
  {
  }

  lemma {:induction false} OneMoreFound(found: seq<AgentSession>, session: AgentSession)
    ensures JobsOf(found + [session]) == JobsOf(found) + [session.job]
  {
  }

  function JobsOf(sessions: seq<AgentSession>): seq<string> {
    seq(|sessions|, i requires 0 <= i < |sessions| => sessions[i].job)
  }

  /** The jobs of an agent, in the order they were registered. */
  function OfAgent(order: seq<string>, live: map<string, Live>, agentName: string): seq<string>
    decreases |order|
  {
    if order == [] then []
    else
      var last := order[|order| - 1];
      OfAgent(order[..|order| - 1], live, agentName)
      + if last in live && live[last].agentName == agentName then [last] else []
  }

  lemma {:induction false} OfAgentMeans(order: seq<string>, live: map<string, Live>, agentName: string)
    requires Distinct(order)
    ensures Distinct(OfAgent(order, live, agentName))
    ensures forall j :: j in OfAgent(order, live, agentName)
                        <==> j in order && j in live && live[j].agentName == agentName
    decreases |order|
  {
    if order != [] {
      assert order == order[..|order| - 1] + [order[|order| - 1]];
      OfAgentMeans(order[..|order| - 1], live, agentName);
    }
  }

  /** The names stand in the one list in the order they have in the other. */
  ghost predicate InOrder(part: seq<string>, order: seq<string>) {
    forall i, k :: 0 <= i < k < |part| ==> Precedes(part[i], part[k], order)
  }

  ghost predicate Precedes(a: string, b: string, order: seq<string>) {
    exists p, q :: 0 <= p < q < |order| && order[p] == a && order[q] == b
  }

  /** Names that stood in order still do when both lists, or the second alone, get one more at the end. */
  lemma {:induction false} InOrderGrows(part: seq<string>, order: seq<string>, last: string)
    requires InOrder(part, order) && forall name :: name in part ==> name in order
    ensures InOrder(part, order + [last]) && InOrder(part + [last], order + [last])
  {
    var longer := order + [last];
    forall i, k | 0 <= i < k < |part| ensures Precedes(part[i], part[k], longer) {
      assert Precedes(part[i], part[k], order);
      var p, q :| 0 <= p < q < |order| && order[p] == part[i] && order[q] == part[k];
      assert longer[p] == part[i] && longer[q] == part[k];
    }
    forall i | 0 <= i < |part| ensures Precedes(part[i], last, longer) {
      assert part[i] in order;
      var p :| 0 <= p < |order| && order[p] == part[i];
      assert longer[p] == part[i] && longer[|order|] == last;
    }
  }

  /** Ending a session leaves the others in their order. */
  lemma {:induction false} RemoveInOrder(order: seq<string>, job: string)
    ensures InOrder(Remove(order, job), order)
    ensures forall name :: name in Remove(order, job) ==> name in order
    decreases |order|
  {
    if order != [] {
      var rest := order[1..];
      assert order == [order[0]] + rest;
      SelfInOrder(rest);
      RemoveInOrder(rest, job);
      if order[0] == job {
        InOrderPrepended(rest, rest, order[0]);
      } else {
        InOrderPrepended(Remove(rest, job), rest, order[0]);
      }
    }
  }

  lemma {:induction false} SelfInOrder(order: seq<string>)
    ensures InOrder(order, order)
  {
    forall i, k | 0 <= i < k < |order| ensures Precedes(order[i], order[k], order) {
    }
  }

  lemma {:induction false} InOrderPrepended(part: seq<string>, order: seq<string>, first: string)
    requires InOrder(part, order) && forall name :: name in part ==> name in order
    ensures InOrder(part, [first] + order) && InOrder([first] + part, [first] + order)
  {
    var longer := [first] + order;
    forall i, k | 0 <= i < k < |part| ensures Precedes(part[i], part[k], longer) {
      assert Precedes(part[i], part[k], order);
      var p, q :| 0 <= p < q < |order| && order[p] == part[i] && order[q] == part[k];
      assert longer[p + 1] == part[i] && longer[q + 1] == part[k];
    }
    forall i | 0 <= i < |part| ensures Precedes(first, part[i], longer) {
      assert part[i] in order;
      var p :| 0 <= p < |order| && order[p] == part[i];
      assert longer[0] == first && longer[p + 1] == part[i];
    }
  }

  lemma {:induction false} OfAgentInOrder(order: seq<string>, live: map<string, Live>, agentName: string)
    ensures InOrder(OfAgent(order, live, agentName), order)
    ensures forall name :: name in OfAgent(order, live, agentName) ==> name in order
    decreases |order|
  {
    if order != [] {
      var init := order[..|order| - 1];
      OfAgentInOrder(init, live, agentName);
      InOrderGrows(OfAgent(init, live, agentName), init, order[|order| - 1]);
      assert order == init + [order[|order| - 1]];
    }
  }

  /** From the first session of the agent that stops a rebind on: what the rebind does not get to. */
  function Unreached(order: seq<string>, live: map<string, Live>, agentName: string, stops: set<string>): set<string>
    decreases |order|
  {
    if order == [] then {}
    else
      var init, last := order[..|order| - 1], order[|order| - 1];
      var before := Unreached(init, live, agentName, stops);
      if before != {} || (last in live && live[last].agentName == agentName && last in stops) then before + {last}
      else {}
  }

  /** Among the agent's jobs, those from the first stopping one on. */
  lemma {:induction false} UnreachedMeans(order: seq<string>, live: map<string, Live>, agentName: string,
                                          stops: set<string>, i: nat)
    requires Distinct(order) && i <= |OfAgent(order, live, agentName)|
    requires forall k :: 0 <= k < i ==> OfAgent(order, live, agentName)[k] !in stops
    requires i < |OfAgent(order, live, agentName)| ==> OfAgent(order, live, agentName)[i] in stops
    ensures Unreached(order, live, agentName, stops) == {} <==> i == |OfAgent(order, live, agentName)|
    ensures forall j :: j in live && live[j].agentName == agentName ==>
              (j in Unreached(order, live, agentName, stops) <==> j in OfAgent(order, live, agentName)[i..])
    decreases |order|
  {
    if order != [] {
      var init, last := order[..|order| - 1], order[|order| - 1];
      assert order == init + [last];
      var all, before := OfAgent(order, live, agentName), OfAgent(init, live, agentName);
      assert all == before + if last in live && live[last].agentName == agentName then [last] else [];
      assert forall k :: 0 <= k < |before| ==> all[k] == before[k];
      if i <= |before| {
        UnreachedMeans(init, live, agentName, stops, i);
        assert all[i..] == before[i..] + all[|before|..];
      } else {
        UnreachedMeans(init, live, agentName, stops, |before|);
        assert all[|before|] == last;
      }
    }
  }

  /** A session the rebind of this agent moves, unless something holds it back. */
  predicate Due(live: Live, agentName: string, cls: AgentClass) {
    live.agentName == agentName && live.agent.cls != cls
  }

  /** Every due session that is not held goes to the new class with its conversation; the rest stay. */
  function Rebound(live: map<string, Live>, agentName: string, cls: AgentClass, held: set<string>): map<string, Live> {
    map j | j in live ::
      if Due(live[j], agentName, cls) && j !in held then live[j].(agent := Agent(cls, live[j].agent.chat)) else live[j]
  }

  function ClassChanges(before: map<string, Live>, after: map<string, Live>): set<string> {
    set j | j in before && j in after && before[j].agent.cls != after[j].agent.cls
  }

  method CarryHistory(oldAgent: Agent, newAgent: Agent) returns (seeded: Agent)
    ensures seeded == Agent(newAgent.cls, oldAgent.chat)
  {
    seeded := newAgent.(chat := oldAgent.chat);
  }

  /**
  Swaps the registered class and moves the live sessions. `failing` are the sessions for which building the
  new agent, carrying the history or updating the session raises; `broken` those whose current agent cannot be
  read, which happens outside the `try` and ends the whole rebind with an exception.
  */
  method RebindAgent(config: AgentConfig, newCls: AgentClass, registry: LiveSessionRegistry,
                     pinned: set<string>, failing: set<string>, broken: set<string>)
    returns (swapped: nat, raised: bool)
    requires registry.Valid()
    modifies config, registry.Sessions()
    ensures config.agentCls == newCls
    ensures newCls == old(config.agentCls) ==> registry.Lives() == old(registry.Lives()) && !raised
    ensures newCls != old(config.agentCls) ==>
              var was := old(registry.Lives());
              var rest := Unreached(registry.order, was, config.name, broken - pinned);
              && registry.Lives() == Rebound(was, config.name, newCls, pinned + failing + rest)
              && (raised <==> rest != {})
    ensures !raised ==> swapped == |ClassChanges(old(registry.Lives()), registry.Lives())|
  {
    hide Rebound, ClassChanges, Moved, MovedSoFar, OfAgent, Unreached, Distinct;
    var oldCls := config.agentCls;
    config.agentCls := newCls;
    ghost var was := registry.Lives();
    if newCls == oldCls {
      MovedNone(was, config.name, newCls, {});
      return 0, false;
    }
    var sessions := registry.SessionsFor(config.name);
    ValidOrder(registry);
    OfAgentMeans(registry.order, was, config.name);
    ghost var i, moved;
    swapped, raised, i, moved := MoveSessions(registry, config.name, sessions, newCls, pinned, failing, broken);
    RebindEnds(registry.order, was, config.name, newCls, pinned + failing, broken - pinned, i, moved);
  }

  /** The loop over the agent's sessions: it ends early only where a session's agent cannot be read. */
  method MoveSessions(registry: LiveSessionRegistry, ghost agentName: string, sessions: seq<AgentSession>,
                      newCls: AgentClass, pinned: set<string>, failing: set<string>, broken: set<string>)
    returns (swapped: nat, raised: bool, ghost i: nat, ghost moved: set<string>)
    requires registry.Valid() && Distinct(JobsOf(sessions))
    requires forall k :: 0 <= k < |sessions| ==>
               sessions[k].job in registry.byJob && registry.byJob[sessions[k].job] == Entry(agentName, sessions[k])
    modifies registry.Sessions()
    ensures i <= |sessions| && swapped == |moved| && (raised <==> i < |sessions|)
    ensures registry.Lives() == Moved(old(registry.Lives()), newCls, moved)
    ensures MovedSoFar(old(registry.Lives()), agentName, newCls, pinned + failing, JobsOf(sessions)[..i], moved)
    ensures forall k :: 0 <= k < i ==> JobsOf(sessions)[k] !in broken - pinned
    ensures i < |sessions| ==> JobsOf(sessions)[i] in broken - pinned
  {
    hide Moved, MovedSoFar;
    ghost var was, jobs := registry.Lives(), JobsOf(sessions);
    MovedNone(was, agentName, newCls, pinned + failing);
    swapped, raised, moved, i := 0, false, {}, 0;
    assert jobs[..0] == [];
    for n := 0 to |sessions|
      invariant i == n && swapped == |moved|
      invariant registry.Valid() && registry.Lives() == Moved(was, newCls, moved)
      invariant MovedSoFar(was, agentName, newCls, pinned + failing, jobs[..n], moved)
      invariant forall k :: 0 <= k < n ==> jobs[k] !in broken - pinned
    {
      assert sessions[n].job == jobs[n];
      DistinctStep(jobs, n);
      NotYetMoved(was, agentName, newCls, pinned + failing, jobs, n, moved);
      var ok;
      ok, raised, moved := RebindSession(registry, agentName, sessions[n], newCls, pinned, failing, broken, was,
                                         jobs[..n], moved);
      if raised {
        return;
      }
      swapped := if ok then swapped + 1 else swapped;
      i := n + 1;
    }
    raised := false;
  }

  /** A rebind that went through the first `i` of the agent's sessions, and stopped there or was done. */
  lemma {:induction false} RebindEnds(order: seq<string>, live: map<string, Live>, agentName: string, cls: AgentClass,
                                      held: set<string>, stops: set<string>, i: nat, moved: set<string>)
    requires Distinct(order) && forall j :: j in live ==> j in order
    requires i <= |OfAgent(order, live, agentName)|
    requires MovedSoFar(live, agentName, cls, held, OfAgent(order, live, agentName)[..i], moved)
    requires forall k :: 0 <= k < i ==> OfAgent(order, live, agentName)[k] !in stops
    requires i < |OfAgent(order, live, agentName)| ==> OfAgent(order, live, agentName)[i] in stops
    ensures var rest := Unreached(order, live, agentName, stops);
            && (rest == {} <==> i == |OfAgent(order, live, agentName)|)
            && Moved(live, cls, moved) == Rebound(live, agentName, cls, held + rest)
    ensures ClassChanges(live, Moved(live, cls, moved)) == moved
  {
    hide MovedSoFar, Moved, Rebound, ClassChanges, OfAgent, Unreached;
    OfAgentMeans(order, live, agentName);
    UnreachedMeans(order, live, agentName, stops, i);
    MovedAll(live, agentName, cls, held, OfAgent(order, live, agentName), i,
             Unreached(order, live, agentName, stops), moved);
  }

  /** The body of the loop: one session is moved, or left alone. */
  method RebindSession(registry: LiveSessionRegistry, ghost agentName: string, session: AgentSession,
                       newCls: AgentClass, pinned: set<string>, failing: set<string>, broken: set<string>,
                       ghost was: map<string, Live>, ghost seen: seq<string>, ghost moved: set<string>)
    returns (swapped: bool, raised: bool, ghost moved': set<string>)
    requires registry.Valid() && session.job in registry.byJob
    requires registry.byJob[session.job] == Entry(agentName, session)
    requires session.job !in moved && registry.Lives() == Moved(was, newCls, moved)
    requires MovedSoFar(was, agentName, newCls, pinned + failing, seen, moved)
    modifies session
    ensures raised <==> session.job in broken - pinned
    ensures raised ==> !swapped && MovedSoFar(was, agentName, newCls, pinned + failing, seen, moved')
    ensures moved' == if swapped then moved + {session.job} else moved
    ensures registry.Lives() == Moved(was, newCls, moved')
    ensures !raised ==> MovedSoFar(was, agentName, newCls, pinned + failing, seen + [session.job], moved')
  {
    assert registry.Lives()[session.job] == Live(agentName, session.agent);
    if session.job in pinned {
      return false, false, moved;
    }
    if session.job in broken {
      return false, true, moved;
    }
    if session.agent.cls == newCls {
      return false, false, moved;
    }
    if session.job in failing {
      return false, false, moved;
    }
    var newAgent := Agent(newCls, []);
    newAgent := CarryHistory(session.agent, newAgent);
    session.agent := newAgent;
    return true, false, moved + {session.job};
  }

  lemma {:induction false} ValidOrder(registry: LiveSessionRegistry)
    requires registry.Valid()
    ensures Distinct(registry.order)
    ensures forall j :: j in registry.Lives() ==> j in registry.order
  {
  }

  lemma {:induction false} DistinctStep(jobs: seq<string>, i: nat)
    requires Distinct(jobs) && i < |jobs|
    ensures jobs[i] !in jobs[..i] && jobs[..i + 1] == jobs[..i] + [jobs[i]]
  {
  }

  lemma {:induction false} NotYetMoved(live: map<string, Live>, agentName: string, cls: AgentClass, held: set<string>,
                                       jobs: seq<string>, i: nat, moved: set<string>)
    requires i < |jobs| && jobs[i] !in jobs[..i] && MovedSoFar(live, agentName, cls, held, jobs[..i], moved)
    ensures jobs[i] !in moved
  {
  }

  /** The sessions in `moved` on the new class, the others as they were. */
  ghost function Moved(live: map<string, Live>, cls: AgentClass, moved: set<string>): map<string, Live> {
    map j | j in live :: if j in moved then live[j].(agent := Agent(cls, live[j].agent.chat)) else live[j]
  }

  ghost predicate MovedSoFar(live: map<string, Live>, agentName: string, cls: AgentClass, held: set<string>,
                             seen: seq<string>, moved: set<string>) {
    forall j :: j in moved <==> j in seen && j in live && Due(live[j], agentName, cls) && j !in held
  }

  lemma {:induction false} MovedNone(live: map<string, Live>, agentName: string, cls: AgentClass, held: set<string>)
    ensures Moved(live, cls, {}) == live && ClassChanges(live, live) == {}
    ensures MovedSoFar(live, agentName, cls, held, [], {})
  {
  }

  lemma {:induction false} MovedAll(live: map<string, Live>, agentName: string, cls: AgentClass, held: set<string>,
                                    jobs: seq<string>, i: nat, rest: set<string>, moved: set<string>)
    requires i <= |jobs| && MovedSoFar(live, agentName, cls, held, jobs[..i], moved) && Distinct(jobs)
    requires forall j :: j in live && live[j].agentName == agentName ==> j in jobs && (j in rest <==> j in jobs[i..])
    ensures Moved(live, cls, moved) == Rebound(live, agentName, cls, held + rest)
    ensures ClassChanges(live, Moved(live, cls, moved)) == moved
  {
  }
}
