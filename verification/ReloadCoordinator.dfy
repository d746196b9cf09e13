/** From a batch of file changes to reloaded, re-bound agents (src/openrtc/reload/coordinator.py). */
module ReloadCoordinator {
  import opened Wrappers
  import FileWatcher
  import opened Reload

  type Path = string

  datatype Report =
    | ReloadFailed(agentName: string, path: Path)
    | ReloadSwapped(agentName: string, path: Path, sessions: nat)

  /** Everything a reload may touch. */
  datatype World = World(
    classes: map<string, AgentClass>,  // the registered class of each agent
    live: map<string, Live>,           // the registered sessions by job
    order: seq<string>,                // the jobs, in the order they were registered
    table: Table,
    reports: seq<Report>)

  datatype Step = Step(agentName: string, path: Path)

  /** What one attempt meets: the file, the sessions it cannot move, and those whose agent cannot be read. */
  datatype Trial = Trial(file: Import, failing: set<string>, broken: set<string>)

  /** The table key of a source file; the digest in the real name stands for the path. */
  function ModuleName(path: Path): string {
    "openrtc_discovered_" + path
  }

  function AttemptResult(w: World, step: Step, trial: Trial): Result
    requires step.agentName in w.classes
  {
    Outcome(trial.file, w.classes[step.agentName])
  }

  /** The sessions the rebind of an attempt does not get to, should it come to that. */
  function LeftOut(w: World, pinned: set<string>, step: Step, trial: Trial): set<string> {
    Unreached(w.order, w.live, step.agentName, trial.broken - pinned)
  }

  /** The class is swapped, and then the rebind raises at a session whose agent cannot be read. */
  predicate RebindRaises(w: World, pinned: set<string>, step: Step, trial: Trial)
    requires step.agentName in w.classes
  {
    var r := AttemptResult(w, step, trial);
    r.Swapped? && r.cls != w.classes[step.agentName] && LeftOut(w, pinned, step, trial) != {}
  }

  /** The attempt ends with an exception, out of the import or out of the rebind. */
  predicate Escapes(w: World, pinned: set<string>, step: Step, trial: Trial)
    requires step.agentName in w.classes
  {
    AttemptResult(w, step, trial).Escaped? || RebindRaises(w, pinned, step, trial)
  }

  /** The registered sessions after the class of an agent was swapped. */
  function LiveAfter(w: World, pinned: set<string>, step: Step, trial: Trial, cls: AgentClass): map<string, Live>
    requires step.agentName in w.classes
  {
    if cls == w.classes[step.agentName] then w.live
    else Rebound(w.live, step.agentName, cls, pinned + trial.failing + LeftOut(w, pinned, step, trial))
  }

  /** One attempt to reload one agent; where the rebind raises nothing is reported. */
  function Attempt(w: World, pinned: set<string>, step: Step, trial: Trial): World
    requires step.agentName in w.classes
  {
    var name, current := step.agentName, w.classes[step.agentName];
    var table := TableAfter(w.table, ModuleName(step.path), trial.file, current);
    match AttemptResult(w, step, trial)
    case Escaped => w.(table := table)
    case Failed => w.(table := table, reports := w.reports + [ReloadFailed(name, step.path)])
    case Swapped(cls) =>
      var live := LiveAfter(w, pinned, step, trial, cls);
      World(w.classes[name := cls], live, w.order, table,
            if RebindRaises(w, pinned, step, trial) then w.reports
            else w.reports + [ReloadSwapped(name, step.path, |ClassChanges(w.live, live)|)])
  }

  /** The agents, in registration order, whose source file this is. */
  function Matching(order: seq<string>, sources: map<string, Option<Path>>, resolve: Path -> Path, path: Path): seq<string>
    decreases |order|
  {
    if order == [] then []
    else
      var last := order[|order| - 1];
      Matching(order[..|order| - 1], sources, resolve, path)
      + if last in sources && sources[last].Some? && resolve(sources[last].value) == path then [last] else []
  }

  function Steps(names: seq<string>, path: Path): seq<Step> {
    seq(|names|, i requires 0 <= i < |names| => Step(names[i], path))
  }

  /** The attempts a batch calls for: each change in turn, each of its agents in turn, deletions skipped. */
  function Plan(order: seq<string>, sources: map<string, Option<Path>>, resolve: Path -> Path,
                changes: seq<FileWatcher.FileChange>): seq<Step>
    decreases |changes|
  {
    if changes == [] then []
    else
      var c := changes[|changes| - 1];
      Plan(order, sources, resolve, changes[..|changes| - 1])
      + if c.changeType.Deleted? then [] else Steps(Matching(order, sources, resolve, resolve(c.path)), resolve(c.path))
  }

  predicate Known(w: World, plan: seq<Step>) {
    forall i :: 0 <= i < |plan| ==> plan[i].agentName in w.classes
  }

  /** The world after the first n attempts; attempt i meets trial(i). */
  function Attempts(w: World, pinned: set<string>, plan: seq<Step>, trial: nat -> Trial, n: nat): (r: World)
    requires n <= |plan| && Known(w, plan)
    ensures r.classes.Keys == w.classes.Keys
    decreases n
  {
    if n == 0 then w else Attempt(Attempts(w, pinned, plan, trial, n - 1), pinned, plan[n - 1], trial(n - 1))
  }

  /** Attempt i ends with an exception. */
  predicate EscapesAt(w: World, pinned: set<string>, plan: seq<Step>, trial: nat -> Trial, i: nat)
    requires i < |plan| && Known(w, plan)
  {
    Escapes(Attempts(w, pinned, plan, trial, i), pinned, plan[i], trial(i))
  }

  lemma {:induction false} PlanIsKnown(order: seq<string>, sources: map<string, Option<Path>>, resolve: Path -> Path,
                                       changes: seq<FileWatcher.FileChange>, w: World)
    requires sources.Keys <= w.classes.Keys
    ensures Known(w, Plan(order, sources, resolve, changes))
    decreases |changes|
  {
    if changes != [] {
      PlanIsKnown(order, sources, resolve, changes[..|changes| - 1], w);
      MatchingMeans(order, sources, resolve, resolve(changes[|changes| - 1].path));
    }
  }

  lemma {:induction false} MatchingMeans(order: seq<string>, sources: map<string, Option<Path>>, resolve: Path -> Path,
                                         path: Path)
    ensures forall name :: name in Matching(order, sources, resolve, path)
                           <==> name in order && name in sources && sources[name].Some?
                                && resolve(sources[name].value) == path
    ensures Distinct(order) ==> Distinct(Matching(order, sources, resolve, path))
    decreases |order|
  {
    if order != [] {
      var init, last := order[..|order| - 1], order[|order| - 1];
      assert order == init + [last];
      MatchingMeans(init, sources, resolve, path);
    }
  }

  /** A path's agents stand in registration order. */
  lemma {:induction false} MatchingInOrder(order: seq<string>, sources: map<string, Option<Path>>, resolve: Path -> Path,
                                           path: Path)
    ensures InOrder(Matching(order, sources, resolve, path), order)
    ensures forall name :: name in Matching(order, sources, resolve, path) ==> name in order
    decreases |order|
  {
    if order != [] {
      var init := order[..|order| - 1];
      MatchingInOrder(init, sources, resolve, path);
      InOrderGrows(Matching(init, sources, resolve, path), init, order[|order| - 1]);
      assert order == init + [order[|order| - 1]];
    }
  }

  /** A batch is worked off change by change: first what its first changes call for, then the rest. */
  lemma {:induction false} PlanConcat(order: seq<string>, sources: map<string, Option<Path>>, resolve: Path -> Path,
                                      a: seq<FileWatcher.FileChange>, b: seq<FileWatcher.FileChange>)
    ensures Plan(order, sources, resolve, a + b) == Plan(order, sources, resolve, a) + Plan(order, sources, resolve, b)
    decreases |b|
  {
    hide Matching, Steps;
    if b == [] {
      assert a + b == a;
    } else {
      assert (a + b)[..|a + b| - 1] == a + b[..|b| - 1];
      PlanConcat(order, sources, resolve, a, b[..|b| - 1]);
    }
  }

  /** What one change calls for: nothing if it deletes, and otherwise one attempt at each agent of its file, in order. */
  lemma {:induction false} PlanOfOne(order: seq<string>, sources: map<string, Option<Path>>, resolve: Path -> Path,
                                     c: FileWatcher.FileChange)
    requires Distinct(order)
    ensures var plan := Plan(order, sources, resolve, [c]);
            var names := seq(|plan|, i requires 0 <= i < |plan| => plan[i].agentName);
            && (c.changeType.Deleted? ==> plan == [])
            && (forall i :: 0 <= i < |plan| ==> plan[i].path == resolve(c.path))
            && Distinct(names) && InOrder(names, order)
            && (!c.changeType.Deleted? ==>
                  forall name :: name in names <==> name in order && name in sources && sources[name].Some?
                                                    && resolve(sources[name].value) == resolve(c.path))
  {
    hide Matching;
    var names := Matching(order, sources, resolve, resolve(c.path));
    MatchingMeans(order, sources, resolve, resolve(c.path));
    MatchingInOrder(order, sources, resolve, resolve(c.path));
    var plan := Plan(order, sources, resolve, [c]);
    assert [c][..0] == [] && Plan(order, sources, resolve, []) == [];
    assert plan == if c.changeType.Deleted? then [] else Steps(names, resolve(c.path));
    assert !c.changeType.Deleted? ==> seq(|plan|, i requires 0 <= i < |plan| => plan[i].agentName) == names;
  }

  function Count(plan: seq<Step>, name: string): nat
    decreases |plan|
  {
    if plan == [] then 0
    else Count(plan[..|plan| - 1], name) + if plan[|plan| - 1].agentName == name then 1 else 0
  }

  /** How many of the changes write the file at this resolved path. */
  function Writes(changes: seq<FileWatcher.FileChange>, resolve: Path -> Path, path: Path): nat
    decreases |changes|
  {
    if changes == [] then 0
    else
      var c := changes[|changes| - 1];
      Writes(changes[..|changes| - 1], resolve, path)
      + if !c.changeType.Deleted? && resolve(c.path) == path then 1 else 0
  }

  lemma {:induction false} CountConcat(a: seq<Step>, b: seq<Step>, name: string)
    ensures Count(a + b, name) == Count(a, name) + Count(b, name)
    decreases |b|
  {
    if b == [] {
      assert a + b == a;
    } else {
      assert (a + b)[..|a + b| - 1] == a + b[..|b| - 1];
      CountConcat(a, b[..|b| - 1], name);
    }
  }

  lemma {:induction false} CountSteps(names: seq<string>, path: Path, name: string)
    requires Distinct(names)
    ensures Count(Steps(names, path), name) == if name in names then 1 else 0
    decreases |names|
  {
    if names != [] {
      var init, last := names[..|names| - 1], names[|names| - 1];
      assert names == init + [last];
      CountSteps(init, path, name);
      assert Steps(names, path)[..|names| - 1] == Steps(init, path);
      assert last !in init;
    }
  }

  /** A batch plans exactly one attempt at an agent for each change that writes its source file. */
  lemma {:induction false} OneAttemptPerWrite(order: seq<string>, sources: map<string, Option<Path>>,
                                              resolve: Path -> Path, changes: seq<FileWatcher.FileChange>, name: string)
    requires Distinct(order) && name in order && name in sources
    ensures Count(Plan(order, sources, resolve, changes), name)
            == if sources[name].Some? then Writes(changes, resolve, resolve(sources[name].value)) else 0
    decreases |changes|
  {
    hide Matching, Steps, Count;
    if changes == [] {
      CountNone(name);
    } else {
      var init, c := changes[..|changes| - 1], changes[|changes| - 1];
      OneAttemptPerWrite(order, sources, resolve, init, name);
      var path := resolve(c.path);
      var names := Matching(order, sources, resolve, path);
      MatchingMeans(order, sources, resolve, path);
      CountSteps(names, path, name);
      CountConcat(Plan(order, sources, resolve, init), if c.changeType.Deleted? then [] else Steps(names, path), name);
      CountNone(name);
    }
  }

  lemma {:induction false} CountNone(name: string)
    ensures Count([], name) == 0
  {
  }

  /** In a list with each file once, under its one name, a file is written by the change that names it, if any. */
  lemma {:induction false} WritesExactly(changes: seq<FileWatcher.FileChange>, resolve: Path -> Path, path: Path)
    requires FileWatcher.DistinctPaths(changes) && FileWatcher.Resolved(resolve, changes)
    ensures forall t :: FileWatcher.Has(changes, path, t) ==> Writes(changes, resolve, path) == if t.Deleted? then 0 else 1
    ensures !FileWatcher.Touches(changes, path) ==> Writes(changes, resolve, path) == 0
    decreases |changes|
  {
    if changes != [] {
      var init, last := changes[..|changes| - 1], changes[|changes| - 1];
      WritesExactly(init, resolve, path);
      forall t | FileWatcher.Has(changes, path, t)
        ensures Writes(changes, resolve, path) == if t.Deleted? then 0 else 1
      {
        var i :| 0 <= i < |changes| && changes[i] == FileWatcher.FileChange(path, t);
        if i < |init| {
          assert init[i] == changes[i];
          assert FileWatcher.Has(init, path, t);
        }
      }
      if FileWatcher.Touches(init, path) {
        var i :| 0 <= i < |init| && init[i].path == path;
        assert changes[i].path == path;
      }
    }
  }

  // ---------------------------------------------------------------------------------------------
  // The coordinator
  // ---------------------------------------------------------------------------------------------

  function At(byPath: map<Path, seq<string>>, path: Path): seq<string> {
    if path in byPath then byPath[path] else []
  }

  ghost predicate Grouped(byPath: map<Path, seq<string>>, order: seq<string>, sources: map<string, Option<Path>>,
                          resolve: Path -> Path) {
    forall path :: At(byPath, path) == Matching(order, sources, resolve, path)
  }

  lemma {:induction false} GroupNone(sources: map<string, Option<Path>>, resolve: Path -> Path)
    ensures Grouped(map[], [], sources, resolve)
  {
  }

  lemma {:induction false} GroupOne(byPath: map<Path, seq<string>>, order: seq<string>,
                                    sources: map<string, Option<Path>>, resolve: Path -> Path, name: string)
    requires Grouped(byPath, order, sources, resolve) && name in sources
    ensures sources[name].None? ==> Grouped(byPath, order + [name], sources, resolve)
    ensures sources[name].Some? ==>
              var path := resolve(sources[name].value);
              Grouped(byPath[path := At(byPath, path) + [name]], order + [name], sources, resolve)
  {
    assert (order + [name])[..|order|] == order;
    forall path ensures Matching(order + [name], sources, resolve, path)
                        == Matching(order, sources, resolve, path)
                           + if sources[name].Some? && resolve(sources[name].value) == path then [name] else []
    {
    }
  }

  /** The first n attempts lead here; the last of them, and no other, escaped if `escaped`. */
  ghost predicate Ended(w: World, now: World, pinned: set<string>, plan: seq<Step>, trial: nat -> Trial, n: nat,
                        escaped: bool)
    requires Known(w, plan)
  {
    && n <= |plan| && now == Attempts(w, pinned, plan, trial, n)
    && (escaped ==> n > 0)
    && forall i :: 0 <= i < n ==>
         (EscapesAt(w, pinned, plan, trial, i) <==> escaped && i == n - 1)
  }

  lemma {:induction false} NothingTried(w: World, pinned: set<string>, plan: seq<Step>, trial: nat -> Trial)
    requires Known(w, plan)
    ensures Ended(w, w, pinned, plan, trial, 0, false)
  {
  }

  lemma {:induction false} OneMore(w: World, now: World, pinned: set<string>, plan: seq<Step>, trial: nat -> Trial, n: nat)
    requires n < |plan| && Known(w, plan) && Ended(w, now, pinned, plan, trial, n, false)
    ensures plan[n].agentName in now.classes
    ensures Ended(w, Attempt(now, pinned, plan[n], trial(n)), pinned, plan, trial, n + 1,
                  Escapes(now, pinned, plan[n], trial(n)))
  {
  }

  lemma {:induction false} PlanNone(order: seq<string>, sources: map<string, Option<Path>>, resolve: Path -> Path)
    ensures Plan(order, sources, resolve, []) == []
  {
  }

  /** Where the attempts of change i stand in the plan of the whole batch. */
  lemma {:induction false} PlanAt(byPath: map<Path, seq<string>>, order: seq<string>, sources: map<string, Option<Path>>,
                                  resolve: Path -> Path, changes: seq<FileWatcher.FileChange>, i: nat)
    requires i < |changes| && Grouped(byPath, order, sources, resolve)
    ensures var path := resolve(changes[i].path);
            var plan, names := Plan(order, sources, resolve, changes), At(byPath, path);
            var first, next := |Plan(order, sources, resolve, changes[..i])|, |Plan(order, sources, resolve, changes[..i + 1])|;
            && (forall j :: 0 <= j < |names| ==> names[j] in order)
            && (if changes[i].changeType.Deleted? then next == first
                else next == first + |names| <= |plan| && plan[first..next] == Steps(names, path))
  {
    hide Matching, Steps;
    var path := resolve(changes[i].path);
    var before, after := Plan(order, sources, resolve, changes[..i]), Plan(order, sources, resolve, changes[..i + 1]);
    MatchingMeans(order, sources, resolve, path);
    assert changes[..i + 1][..i] == changes[..i];
    PlanGrows(order, sources, resolve, changes, i + 1);
    if !changes[i].changeType.Deleted? {
      assert after == before + Steps(At(byPath, path), path);
      StepsLength(At(byPath, path), path);
      assert Plan(order, sources, resolve, changes)[|before|..|after|] == after[|before|..];
    }
  }

  lemma {:induction false} StepsLength(names: seq<string>, path: Path)
    ensures |Steps(names, path)| == |names|
  {
  }

  lemma {:induction false} PlanGrows(order: seq<string>, sources: map<string, Option<Path>>, resolve: Path -> Path,
                                     changes: seq<FileWatcher.FileChange>, n: nat)
    requires n <= |changes|
    ensures Plan(order, sources, resolve, changes[..n]) <= Plan(order, sources, resolve, changes)
    decreases |changes|
  {
    hide Matching, Steps;
    if n == |changes| {
      assert changes[..n] == changes;
    } else {
      PlanGrows(order, sources, resolve, changes[..|changes| - 1], n);
      assert changes[..|changes| - 1][..n] == changes[..n];
    }
  }

  class Coordinator {
    const agents: map<string, AgentConfig>
    const order: seq<string>  // the insertion order of the agents
    const registry: LiveSessionRegistry
    const modules: ModuleTable
    var reports: seq<Report>

    ghost predicate Valid()
      reads registry
    {
      && registry.Valid()
      && Distinct(order) && (forall name :: name in order <==> name in agents)
      && forall name :: name in agents ==> agents[name].name == name
    }

    ghost function Configs(): set<AgentConfig> {
      set name | name in agents :: agents[name]
    }

    ghost function Sources(): map<string, Option<Path>> {
      map name | name in agents :: agents[name].sourcePath
    }

    ghost function Classes(): map<string, AgentClass>
      reads Configs()
    {
      map name | name in agents :: agents[name].agentCls
    }

    ghost function Model(): World
      reads this, Configs(), registry, registry.Sessions(), modules
    {
      World(Classes(), registry.Lives(), registry.order, modules.entries, reports)
    }

    constructor (agents: map<string, AgentConfig>, order: seq<string>, registry: LiveSessionRegistry,
                 modules: ModuleTable)
      requires registry.Valid()
      requires Distinct(order) && (forall name :: name in order <==> name in agents)
      requires forall name :: name in agents ==> agents[name].name == name
      ensures Valid() && this.agents == agents && this.order == order
      ensures this.registry == registry && this.modules == modules && reports == []
    {
      this.agents, this.order, this.registry, this.modules := agents, order, registry, modules;
      reports := [];
    }

    method ConfigsBySourcePath(resolve: Path -> Path) returns (byPath: map<Path, seq<string>>)
      requires Valid()
      ensures Grouped(byPath, order, Sources(), resolve)
    {
      hide Matching;
      byPath := map[];
      GroupNone(Sources(), resolve);
      for i := 0 to |order|
        invariant Grouped(byPath, order[..i], Sources(), resolve)
      {
        GroupOne(byPath, order[..i], Sources(), resolve, order[i]);
        assert order[..i + 1] == order[..i] + [order[i]];
        var config := agents[order[i]];
        if config.sourcePath.Some? {
          var path := resolve(config.sourcePath.value);
          byPath := byPath[path := At(byPath, path) + [config.name]];
        }
      }
      assert order[..|order|] == order;
    }

    method SwapIn(config: AgentConfig, cls: AgentClass, pinned: set<string>, failing: set<string>,
                  broken: set<string>)
      returns (swapped: nat, raised: bool)
      requires Valid() && config in Configs()
      modifies config, registry.Sessions()
      ensures Valid() && Classes() == old(Classes())[config.name := cls]
      ensures cls == old(config.agentCls) ==> registry.Lives() == old(registry.Lives()) && !raised
      ensures cls != old(config.agentCls) ==>
                var was := old(registry.Lives());
                var rest := Unreached(registry.order, was, config.name, broken - pinned);
                && registry.Lives() == Rebound(was, config.name, cls, pinned + failing + rest)
                && (raised <==> rest != {})
      ensures !raised ==> swapped == |ClassChanges(old(registry.Lives()), registry.Lives())|
    {
      hide Rebound, ClassChanges, Unreached;
      swapped, raised := RebindAgent(config, cls, registry, pinned, failing, broken);
    }

    lemma {:induction false} ClassOf(config: AgentConfig)
      requires Valid() && config in Configs()
      ensures config.name in Classes() && Classes()[config.name] == config.agentCls
    {
    }

    lemma {:induction false} AgentOf(name: string)
      requires Valid() && name in order
      ensures name in agents && agents[name].name == name && agents[name] in Configs()
    {
    }

    lemma {:induction false} SourcesAreAgents()
      ensures Sources().Keys == Model().classes.Keys
    {
    }

    method ReloadOne(config: AgentConfig, path: Path, trial: Trial, pinned: set<string>) returns (escaped: bool)
      requires Valid() && config in Configs()
      modifies this`reports, modules, Configs(), registry.Sessions()
      ensures Valid() && registry.Sessions() == old(registry.Sessions())
      ensures Model() == Attempt(old(Model()), pinned, Step(config.name, path), trial)
      ensures escaped <==> Escapes(old(Model()), pinned, Step(config.name, path), trial)
    {
      hide Outcome, TableAfter, Rebound, ClassChanges, Unreached, ModuleName, Classes, Valid;
      ghost var was := Model();
      ClassOf(config);
      var result := modules.ReloadAgentModule(ModuleName(path), config.agentCls, trial.file);
      assert registry.Lives() == was.live && Classes() == was.classes;
      if result.Escaped? {
        return true;
      }
      if result.Failed? {
        reports := reports + [ReloadFailed(config.name, path)];
        return false;
      }
      var swapped, raised := SwapIn(config, result.cls, pinned, trial.failing, trial.broken);
      if raised {
        return true;
      }
      reports := reports + [ReloadSwapped(config.name, path, swapped)];
      escaped := false;
    }

    /** The agents of one changed file, from attempt `first` of the plan on. */
    method ReloadPath(names: seq<string>, path: Path, trial: nat -> Trial, pinned: set<string>, first: nat,
                      ghost w: World, ghost plan: seq<Step>)
      returns (attempted: nat, escaped: bool)
      requires Valid() && Known(w, plan) && first + |names| <= |plan|
      requires Ended(w, Model(), pinned, plan, trial, first, false)
      requires forall j :: 0 <= j < |names| ==> names[j] in order
      requires plan[first..first + |names|] == Steps(names, path)
      modifies this`reports, modules, Configs(), registry.Sessions()
      ensures Valid() && Ended(w, Model(), pinned, plan, trial, attempted, escaped)
      ensures !escaped ==> attempted == first + |names|
    {
      hide Attempts, AttemptResult, Escapes, Attempt, Ended, Model, Known, Valid;
      attempted, escaped := first, false;
      for j := 0 to |names|
        invariant Valid() && attempted == first + j && Ended(w, Model(), pinned, plan, trial, attempted, false)
      {
        assert plan[first..first + |names|][j] == plan[attempted];
        AgentOf(names[j]);
        OneMore(w, Model(), pinned, plan, trial, attempted);
        escaped := ReloadOne(agents[names[j]], path, trial(attempted), pinned);
        attempted := attempted + 1;
        if escaped {
          return;
        }
      }
    }

    /**
    One batch. An attempt that ends with an exception ends the whole batch: the attempts made are those of the plan up
    to and including the first that escapes.
    */
    method OnChange(changes: seq<FileWatcher.FileChange>, resolve: Path -> Path, trial: nat -> Trial,
                    pinned: set<string>)
      returns (attempted: nat, escaped: bool)
      requires Valid()
      modifies this`reports, modules, Configs(), registry.Sessions()
      ensures Valid()
      ensures var w, plan := old(Model()), Plan(order, Sources(), resolve, changes);
              && Known(w, plan) && Ended(w, Model(), pinned, plan, trial, attempted, escaped)
              && (!escaped ==> attempted == |plan|)
    {
      hide Attempts, AttemptResult, Escapes, Attempt, Plan, Matching, Grouped, Ended, Model, Known, Valid, Sources;
      ghost var w, sources := Model(), Sources();
      ghost var plan := Plan(order, sources, resolve, changes);
      SourcesAreAgents();
      PlanIsKnown(order, sources, resolve, changes, w);
      NothingTried(w, pinned, plan, trial);
      PlanNone(order, sources, resolve);
      assert changes[..0] == [] && changes[..|changes|] == changes;
      attempted, escaped := 0, false;
      var byPath := ConfigsBySourcePath(resolve);
      for i := 0 to |changes|
        invariant Valid() && attempted <= |plan| && Ended(w, Model(), pinned, plan, trial, attempted, false)
        invariant attempted == |Plan(order, sources, resolve, changes[..i])|
      {
        var path := resolve(changes[i].path);
        var names := At(byPath, path);
        PlanAt(byPath, order, sources, resolve, changes, i);
        if !changes[i].changeType.Deleted? {
          attempted, escaped := ReloadPath(names, path, trial, pinned, attempted, w, plan);
          if escaped {
            return;
          }
        }
      }
    }
  }
}
