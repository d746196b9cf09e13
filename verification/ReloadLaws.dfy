/**
What hot reload keeps over whole runs: sessions being built, registered, pinned, talking and ending, in any
interleaving with reload attempts that fail, escape or succeed.
*/
module ReloadLaws {
  import opened Wrappers
  import FileWatcher
  import opened Reload
  import opened ReloadCoordinator

  datatype State = State(
    world: World,
    starting: map<string, Live>,  // built, but not registered yet
    ended: map<string, Live>,
    pinned: set<string>)

  datatype Event =
    | Build(job: string, agentName: string)
    | Register(job: string)
    | End(job: string)
    | Pin(job: string)
    | Unpin(job: string)
    | Say(job: string, text: string)
    | Reload(step: Step, trial: Trial)

  /** A session in whatever phase. */
  function Session(s: State, job: string): Option<Live> {
    if job in s.starting then Some(s.starting[job])
    else if job in s.world.live then Some(s.world.live[job])
    else if job in s.ended then Some(s.ended[job])
    else None
  }

  predicate Happens(s: State, e: Event) {
    match e
    case Build(job, agentName) => Session(s, job).None? && agentName in s.world.classes
    case Register(job) => job in s.starting
    case End(job) => job in s.starting || job in s.world.live
    case Pin(_) => true
    case Unpin(_) => true
    case Say(job, _) => job in s.starting || job in s.world.live
    case Reload(step, _) => step.agentName in s.world.classes
  }

  function Heard(l: Live, text: string): Live {
    l.(agent := Agent(l.agent.cls, l.agent.chat + [text]))
  }

  function Turn(s: State, e: Event): State {
    if !Happens(s, e) then s
    else
      match e
      case Build(job, agentName) =>
        s.(starting := s.starting[job := Live(agentName, Agent(s.world.classes[agentName], []))])
      case Register(job) =>
        s.(starting := s.starting - {job},
           world := s.world.(live := s.world.live[job := s.starting[job]], order := s.world.order + [job]))
      case End(job) =>
        var last := if job in s.starting then s.starting[job] else s.world.live[job];
        s.(starting := s.starting - {job}, ended := s.ended[job := last],
           world := s.world.(live := s.world.live - {job}, order := Remove(s.world.order, job)))
      case Pin(job) => s.(pinned := s.pinned + {job})
      case Unpin(job) => s.(pinned := s.pinned - {job})
      case Say(job, text) =>
        if job in s.starting then s.(starting := s.starting[job := Heard(s.starting[job], text)])
        else s.(world := s.world.(live := s.world.live[job := Heard(s.world.live[job], text)]))
      case Reload(step, trial) => s.(world := Attempt(s.world, s.pinned, step, trial))
  }

  function Start(classes: map<string, AgentClass>, table: Table): State {
    State(World(classes, map[], [], table, []), map[], map[], {})
  }

  function After(s0: State, events: seq<Event>, n: nat): State
    requires n <= |events|
    decreases n
  {
    if n == 0 then s0 else Turn(After(s0, events, n - 1), events[n - 1])
  }

  predicate IsStart(s: State) {
    s.starting == map[] && s.ended == map[] && s.world.live == map[] && s.world.order == [] && s.world.reports == []
  }

  /** A session is in one phase, and belongs to a registered agent. */
  ghost predicate Sound(s: State) {
    && (forall j :: j in s.starting ==> j !in s.world.live && j !in s.ended && s.starting[j].agentName in s.world.classes)
    && (forall j :: j in s.world.live ==> j !in s.ended && s.world.live[j].agentName in s.world.classes)
  }

  lemma {:induction false} TurnIsSound(s: State, e: Event)
    requires Sound(s)
    ensures Sound(Turn(s, e)) && Turn(s, e).world.classes.Keys == s.world.classes.Keys
  {
    hide Attempt, Remove;
    if e.Reload? && Happens(s, e) {
      AttemptKeepsNames(s.world, s.pinned, e.step, e.trial);
    }
  }

  /** An attempt leaves the sets of sessions and agents, and who belongs to whom, as they are. */
  lemma {:induction false} AttemptKeepsNames(w: World, pinned: set<string>, step: Step, trial: Trial)
    requires step.agentName in w.classes
    ensures var now := Attempt(w, pinned, step, trial);
            && now.classes.Keys == w.classes.Keys && now.live.Keys == w.live.Keys && now.order == w.order
            && forall j :: j in w.live ==> now.live[j].agentName == w.live[j].agentName
  {
  }

  lemma {:induction false} RunIsSound(s0: State, events: seq<Event>, n: nat)
    requires IsStart(s0) && n <= |events|
    ensures Sound(After(s0, events, n))
    decreases n
  {
    hide Turn;
    if n > 0 {
      RunIsSound(s0, events, n - 1);
      TurnIsSound(After(s0, events, n - 1), events[n - 1]);
    }
  }

  // ---------------------------------------------------------------------------------------------
  // Who is there
  // ---------------------------------------------------------------------------------------------

  /** The registry's order lists the registered sessions, each once. */
  ghost predicate OrderOk(w: World) {
    Distinct(w.order) && forall job :: job in w.order <==> job in w.live
  }

  lemma {:induction false} TurnKeepsOrder(s: State, e: Event)
    requires Sound(s) && OrderOk(s.world)
    ensures OrderOk(Turn(s, e).world)
  {
    hide Attempt;
    match e {
      case End(job) => RemoveMeans(s.world.order, job);
      case Reload(step, trial) =>
        if Happens(s, e) {
          AttemptKeepsNames(s.world, s.pinned, step, trial);
        }
      case _ =>
    }
  }

  lemma {:induction false} RegistryInOrder(s0: State, events: seq<Event>, n: nat)
    requires IsStart(s0) && n <= |events|
    ensures OrderOk(After(s0, events, n).world)
    decreases n
  {
    hide Turn, Sound;
    if n > 0 {
      RegistryInOrder(s0, events, n - 1);
      RunIsSound(s0, events, n - 1);
      TurnKeepsOrder(After(s0, events, n - 1), events[n - 1]);
    }
  }

  /** At some step of the run this was done to the session. */
  ghost predicate Did(s0: State, events: seq<Event>, n: nat, did: (State, Event) -> bool)
    requires n <= |events|
  {
    exists i :: 0 <= i < n && did(After(s0, events, i), events[i])
  }

  lemma {:induction false} DidStep(s0: State, events: seq<Event>, n: nat, did: (State, Event) -> bool)
    requires 0 < n <= |events|
    ensures Did(s0, events, n, did) <==> Did(s0, events, n - 1, did) || did(After(s0, events, n - 1), events[n - 1])
  {
  }

  function Builds(job: string): (State, Event) -> bool {
    (s: State, e: Event) => e.Build? && e.job == job && e.agentName in s.world.classes
  }

  function Registers(job: string): (State, Event) -> bool {
    (s: State, e: Event) => e == Register(job) && job in s.starting
  }

  function Finishes(job: string): (State, Event) -> bool {
    (s: State, e: Event) => e == End(job) && (job in s.starting || job in s.world.live)
  }

  lemma {:induction false} TurnOfPhase(s: State, e: Event, job: string)
    requires Sound(s)
    ensures var t := Turn(s, e);
            && (Session(t, job).Some? <==> Session(s, job).Some? || Builds(job)(s, e))
            && (job in t.ended <==> job in s.ended || Finishes(job)(s, e))
            && (job in t.world.live || job in t.ended ==>
                  job in s.world.live || job in s.ended || Registers(job)(s, e) || Finishes(job)(s, e))
            && (job in s.world.live ==> job in t.world.live || job in t.ended)
            && (Registers(job)(s, e) ==> job in t.world.live)
  {
    hide Attempt, Remove;
    if e.Reload? && Happens(s, e) {
      AttemptKeepsNames(s.world, s.pinned, e.step, e.trial);
    }
  }

  /**
  Where a session is, told by what happened to it: there at all exactly if it was built, over exactly if it ended, and
  until then registered exactly if it was registered.
  */
  lemma {:induction false} PhaseExactly(s0: State, events: seq<Event>, n: nat, job: string)
    requires IsStart(s0) && n <= |events|
    ensures var s := After(s0, events, n);
            && (Session(s, job).Some? <==> Did(s0, events, n, Builds(job)))
            && (job in s.ended <==> Did(s0, events, n, Finishes(job)))
            && (job in s.world.live <==> Did(s0, events, n, Registers(job)) && job !in s.ended)
    decreases n
  {
    hide Turn, Did, Sound, Session;
    if n == 0 {
      NothingDone(s0, events, job);
    } else {
      PhaseExactly(s0, events, n - 1, job);
      RunIsSound(s0, events, n - 1);
      RunIsSound(s0, events, n);
      DidStep(s0, events, n, Builds(job));
      DidStep(s0, events, n, Finishes(job));
      DidStep(s0, events, n, Registers(job));
      TurnOfPhase(After(s0, events, n - 1), events[n - 1], job);
      OverIsOver(After(s0, events, n - 1), job);
      OverIsOver(After(s0, events, n), job);
    }
  }

  lemma {:induction false} NothingDone(s0: State, events: seq<Event>, job: string)
    requires IsStart(s0)
    ensures Session(s0, job).None? && forall did :: !Did(s0, events, 0, did)
  {
  }

  lemma {:induction false} OverIsOver(s: State, job: string)
    requires Sound(s)
    ensures job in s.ended ==> job !in s.world.live && job !in s.starting
    ensures job in s.starting ==> job !in s.world.live
  {
  }

  /** A session is pinned exactly if it was, and has not been unpinned since. */
  lemma {:induction false} PinnedExactly(s0: State, events: seq<Event>, n: nat, job: string)
    requires n <= |events| && s0.pinned == {}
    ensures job in After(s0, events, n).pinned
            <==> exists i :: 0 <= i < n && events[i] == Pin(job) && forall k :: i < k < n ==> events[k] != Unpin(job)
    decreases n
  {
    hide Turn;
    if n > 0 {
      PinnedExactly(s0, events, n - 1, job);
      TurnOfPins(After(s0, events, n - 1), events[n - 1], job);
      if events[n - 1] == Unpin(job) {
        assert forall i :: 0 <= i < n && events[i] == Pin(job) ==> i < n - 1 && events[n - 1] == Unpin(job);
      }
    }
  }

  lemma {:induction false} TurnOfPins(s: State, e: Event, job: string)
    ensures job in Turn(s, e).pinned <==> e == Pin(job) || (job in s.pinned && e != Unpin(job))
  {
    hide Attempt, Remove;
  }

  // ---------------------------------------------------------------------------------------------
  // Which class a session runs
  // ---------------------------------------------------------------------------------------------

  /** The class a reload attempt puts in place of another one, if it does. */
  function NewClass(s: State, e: Event): Option<AgentClass> {
    if e.Reload? && Happens(s, e) then
      var r := AttemptResult(s.world, e.step, e.trial);
      if r.Swapped? && r.cls != s.world.classes[e.step.agentName] then Some(r.cls) else None
    else None
  }

  predicate ChangesClass(s: State, e: Event, agentName: string) {
    e.Reload? && e.step.agentName == agentName && NewClass(s, e).Some?
  }

  /** The last of the first n events that changed the class of this agent. */
  function LastChange(s0: State, events: seq<Event>, n: nat, agentName: string): (k: Option<nat>)
    requires n <= |events|
    ensures k.Some? ==> k.value < n
    decreases n
  {
    if n == 0 then None
    else if ChangesClass(After(s0, events, n - 1), events[n - 1], agentName) then Some(n - 1)
    else LastChange(s0, events, n - 1, agentName)
  }

  lemma {:induction false} LastChangeMeans(s0: State, events: seq<Event>, n: nat, agentName: string)
    requires n <= |events|
    ensures var k := LastChange(s0, events, n, agentName);
            && (k.Some? ==> ChangesClass(After(s0, events, k.value), events[k.value], agentName))
            && forall i :: (if k.Some? then k.value + 1 else 0) <= i < n ==>
                 !ChangesClass(After(s0, events, i), events[i], agentName)
    decreases n
  {
    hide ChangesClass, After;
    if n > 0 {
      LastChangeMeans(s0, events, n - 1, agentName);
    }
  }

  /** The rebind got to the session: registered, not pinned, moved without an error, and not behind a broken one. */
  predicate Reached(s: State, e: Event, job: string) {
    && e.Reload? && job in s.world.live && job !in s.pinned && job !in e.trial.failing
    && job !in LeftOut(s.world, s.pinned, e.step, e.trial)
  }

  /** What an event adds to a session's conversation. */
  function Added(s: State, e: Event, job: string): seq<string> {
    if e.Say? && e.job == job && Happens(s, e) then [e.text] else []
  }

  /** What one step does to one session. */
  lemma {:induction false} TurnOfSession(s: State, e: Event, job: string)
    requires Sound(s)
    ensures var was, now, t := Session(s, job), Session(Turn(s, e), job), Turn(s, e);
            && (was.Some? ==> now.Some? && now.value.agentName == was.value.agentName)
            && (was.None? && now.Some? ==>
                  && e == Build(job, now.value.agentName) && Happens(s, e)
                  && now.value.agent == Agent(s.world.classes[now.value.agentName], [])
                  && t.world.classes == s.world.classes)
            && (was.Some? ==>
                  now.value.agent.cls
                  == if ChangesClass(s, e, was.value.agentName) && Reached(s, e, job) then NewClass(s, e).value
                     else was.value.agent.cls)
            && (was.Some? ==>
                  now.value.agent.chat
                  == was.value.agent.chat + Added(s, e, job))
  {
    hide Outcome, TableAfter, ClassChanges, Unreached, Remove;
    if Session(s, job).Some? {
      assert Session(s, job).value.agent.chat + [] == Session(s, job).value.agent.chat;
    }
  }

  lemma {:induction false} TurnOfClasses(s: State, e: Event, agentName: string)
    requires Sound(s) && agentName in s.world.classes
    ensures agentName in Turn(s, e).world.classes
    ensures Turn(s, e).world.classes[agentName]
            == if ChangesClass(s, e, agentName) then NewClass(s, e).value else s.world.classes[agentName]
  {
  }

  /** Excused from the current class: at the last change it existed, and the rebind did not reach it. */
  ghost predicate Excused(s0: State, events: seq<Event>, n: nat, job: string, agentName: string)
    requires n <= |events|
  {
    var k := LastChange(s0, events, n, agentName);
    && k.Some?
    && Session(After(s0, events, k.value), job).Some?
    && !Reached(After(s0, events, k.value), events[k.value], job)
  }

  /**
  In every reachable state each session that has not ended runs the registered class of its agent, unless at
  the last change of that class it was pinned, could not be moved, stood behind a session that stopped the
  rebind, or was built but not yet registered.
  */
  lemma {:induction false} SessionsAreCurrent(s0: State, events: seq<Event>, n: nat, job: string)
    requires IsStart(s0) && n <= |events|
    requires var s := After(s0, events, n); job in s.starting || job in s.world.live
    ensures var s := After(s0, events, n);
            var l := Session(s, job).value;
            && l.agentName in s.world.classes
            && (Excused(s0, events, n, job, l.agentName) || l.agent.cls == s.world.classes[l.agentName])
    decreases n
  {
    hide Turn, NewClass, Reached, ChangesClass, Added;
    RunIsSound(s0, events, n);
    if n > 0 {
      var s, e := After(s0, events, n - 1), events[n - 1];
      RunIsSound(s0, events, n - 1);
      TurnOfSession(s, e, job);
      StillOpen(s, e, job);
      if Session(s, job).Some? {
        SessionsAreCurrent(s0, events, n - 1, job);
        TurnOfClasses(s, e, Session(s, job).value.agentName);
      }
    }
  }

  lemma {:induction false} StillOpen(s: State, e: Event, job: string)
    requires Sound(s)
    requires var t := Turn(s, e); job in t.starting || job in t.world.live
    ensures Session(s, job).Some? ==> job in s.starting || job in s.world.live
  {
  }

  /** A session pinned before every event of a stretch runs at its end the class it ran at its start. */
  lemma {:induction false} PinHolds(s0: State, events: seq<Event>, m: nat, n: nat, job: string)
    requires IsStart(s0) && m <= n <= |events|
    requires Session(After(s0, events, m), job).Some?
    requires forall i :: m <= i < n ==> job in After(s0, events, i).pinned
    ensures Session(After(s0, events, n), job).Some?
    ensures Session(After(s0, events, n), job).value.agent.cls == Session(After(s0, events, m), job).value.agent.cls
    decreases n
  {
    hide Turn, NewClass, ChangesClass, Added;
    if m < n {
      PinHolds(s0, events, m, n - 1, job);
      RunIsSound(s0, events, n - 1);
      TurnOfSession(After(s0, events, n - 1), events[n - 1], job);
    }
  }

  // ---------------------------------------------------------------------------------------------
  // Nothing a session heard is lost
  // ---------------------------------------------------------------------------------------------

  /** What was said in a session, by the events alone. */
  function Said(s0: State, events: seq<Event>, n: nat, job: string): seq<string>
    requires n <= |events|
    decreases n
  {
    if n == 0 then []
    else Said(s0, events, n - 1, job) + Added(After(s0, events, n - 1), events[n - 1], job)
  }

  function ChatOf(s: State, job: string): seq<string> {
    var session := Session(s, job);
    if session.Some? then session.value.agent.chat else []
  }

  lemma {:induction false} TurnOfChat(s: State, e: Event, job: string)
    requires Sound(s)
    ensures ChatOf(Turn(s, e), job) == ChatOf(s, job) + Added(s, e, job)
  {
    hide Turn, NewClass, ChangesClass, Reached, Happens, Sound, Session, Added;
    TurnOfSession(s, e, job);
    SilentWithoutSession(s, e, job);
  }

  /** However often its class was swapped, a session still has everything said in it, in order. */
  lemma {:induction false} HistoryKept(s0: State, events: seq<Event>, n: nat, job: string)
    requires IsStart(s0) && n <= |events|
    ensures Said(s0, events, n, job) == ChatOf(After(s0, events, n), job)
    decreases n
  {
    hide Turn, Added, ChatOf;
    if n == 0 {
      NothingSaid(s0, job);
    } else {
      HistoryKept(s0, events, n - 1, job);
      RunIsSound(s0, events, n - 1);
      TurnOfChat(After(s0, events, n - 1), events[n - 1], job);
    }
  }

  lemma {:induction false} NothingSaid(s0: State, job: string)
    requires IsStart(s0)
    ensures ChatOf(s0, job) == []
  {
  }

  lemma {:induction false} SilentWithoutSession(s: State, e: Event, job: string)
    ensures Session(s, job).None? ==> Added(s, e, job) == []
  {
  }

  // ---------------------------------------------------------------------------------------------
  // Reports are exact
  // ---------------------------------------------------------------------------------------------

  function AllSessions(s: State): map<string, Live> {
    s.starting + s.world.live + s.ended
  }

  function Swaps(reports: seq<Report>): nat
    decreases |reports|
  {
    if reports == [] then 0
    else
      var last := reports[|reports| - 1];
      Swaps(reports[..|reports| - 1]) + if last.ReloadSwapped? then last.sessions else 0
  }

  /** The class changes of the whole run, counted session by session and step by step. */
  function Moves(s0: State, events: seq<Event>, n: nat): nat
    requires n <= |events|
    decreases n
  {
    if n == 0 then 0
    else
      Moves(s0, events, n - 1)
      + |ClassChanges(AllSessions(After(s0, events, n - 1)), AllSessions(After(s0, events, n)))|
  }

  lemma {:induction false} SwapsAppend(reports: seq<Report>, r: Report)
    ensures Swaps(reports + [r]) == Swaps(reports) + if r.ReloadSwapped? then r.sessions else 0
  {
  }

  lemma {:induction false} OnlyLiveChanges(s: State, t: State)
    requires Sound(s) && s.starting == t.starting && s.ended == t.ended && s.world.live.Keys == t.world.live.Keys
    ensures ClassChanges(AllSessions(s), AllSessions(t)) == ClassChanges(s.world.live, t.world.live)
  {
    forall j ensures j in ClassChanges(AllSessions(s), AllSessions(t)) <==> j in ClassChanges(s.world.live, t.world.live) {
      if j in s.world.live {
        assert AllSessions(s)[j] == s.world.live[j] && AllSessions(t)[j] == t.world.live[j];
      } else if j in AllSessions(s) {
        assert AllSessions(s)[j] == AllSessions(t)[j];
      }
    }
  }

  lemma {:induction false} SessionIsIn(s: State, j: string)
    requires Sound(s)
    ensures (j in AllSessions(s)) == Session(s, j).Some?
    ensures j in AllSessions(s) ==> AllSessions(s)[j] == Session(s, j).value
  {
  }

  /** The class changes of a step that are never reported, since its rebind raised. */
  function LostMoves(s: State, e: Event): nat {
    if e.Reload? && Happens(s, e) && RebindRaises(s.world, s.pinned, e.step, e.trial) then
      |ClassChanges(AllSessions(s), AllSessions(Turn(s, e)))|
    else 0
  }

  function Lost(s0: State, events: seq<Event>, n: nat): nat
    requires n <= |events|
    decreases n
  {
    if n == 0 then 0 else Lost(s0, events, n - 1) + LostMoves(After(s0, events, n - 1), events[n - 1])
  }

  /** One step reports as many swaps as sessions changed class in it, unless its rebind raised. */
  lemma {:induction false} StepReportsItsMoves(s: State, e: Event)
    requires Sound(s)
    ensures Swaps(Turn(s, e).world.reports) + LostMoves(s, e)
            == Swaps(s.world.reports) + |ClassChanges(AllSessions(s), AllSessions(Turn(s, e)))|
  {
    hide Outcome, TableAfter, Swaps, AllSessions, Sound, LeftOut, Rebound;
    if e.Reload? && Happens(s, e) {
      AttemptKeepsNames(s.world, s.pinned, e.step, e.trial);
      OnlyLiveChanges(s, Turn(s, e));
      NoChange(s.world.live);
      if Turn(s, e).world.reports != s.world.reports {
        SwapsAppend(s.world.reports, Turn(s, e).world.reports[|s.world.reports|]);
      }
    } else {
      QuietStep(s, e);
      assert ClassChanges(AllSessions(s), AllSessions(Turn(s, e))) == {};
    }
  }

  lemma {:induction false} NoChange(live: map<string, Live>)
    ensures ClassChanges(live, live) == {}
  {
  }

  lemma {:induction false} QuietStep(s: State, e: Event)
    requires Sound(s) && !(e.Reload? && Happens(s, e))
    ensures forall j :: j !in ClassChanges(AllSessions(s), AllSessions(Turn(s, e)))
    ensures Turn(s, e).world.reports == s.world.reports
  {
    hide AllSessions, Turn, Happens, ChangesClass;
    TurnIsSound(s, e);
    forall j ensures j !in ClassChanges(AllSessions(s), AllSessions(Turn(s, e))) {
      SessionIsIn(s, j);
      SessionIsIn(Turn(s, e), j);
      TurnOfSession(s, e, j);
      QuietMeans(s, e);
    }
    QuietMeans(s, e);
  }

  lemma {:induction false} QuietMeans(s: State, e: Event)
    requires !(e.Reload? && Happens(s, e))
    ensures NewClass(s, e).None? && Turn(s, e).world.reports == s.world.reports
    ensures forall a :: !ChangesClass(s, e, a)
  {
  }

  /**
  Over any run the swaps reported, and those lost with a rebind that raised, add up to the class changes made to
  any session, registered or not.
  */
  lemma {:induction false} SwapsReported(s0: State, events: seq<Event>, n: nat)
    requires IsStart(s0) && n <= |events|
    ensures Swaps(After(s0, events, n).world.reports) + Lost(s0, events, n) == Moves(s0, events, n)
    decreases n
  {
    hide Turn, Swaps, AllSessions, ClassChanges, LostMoves;
    if n > 0 {
      SwapsReported(s0, events, n - 1);
      RunIsSound(s0, events, n - 1);
      StepReportsItsMoves(After(s0, events, n - 1), events[n - 1]);
    } else {
      NoSwaps();
    }
  }

  /**
  The rebind of this attempt will raise, and this session is one it moves before: of the agent, on another class,
  not pinned, not failing, and registered ahead of the first session that cannot be read.
  */
  predicate MovedBeforeRaise(s: State, e: Event, job: string) {
    && e.Reload? && Happens(s, e) && RebindRaises(s.world, s.pinned, e.step, e.trial)
    && job in s.world.live && Due(s.world.live[job], e.step.agentName, AttemptResult(s.world, e.step, e.trial).cls)
    && job !in s.pinned && job !in e.trial.failing && job !in LeftOut(s.world, s.pinned, e.step, e.trial)
  }

  lemma {:induction false} LostMovesExactly(s: State, e: Event)
    requires Sound(s)
    ensures LostMoves(s, e) == 0 <==> forall job :: !MovedBeforeRaise(s, e, job)
  {
    hide Outcome, TableAfter, AllSessions, Sound, LeftOut;
    if e.Reload? && Happens(s, e) && RebindRaises(s.world, s.pinned, e.step, e.trial) {
      AttemptKeepsNames(s.world, s.pinned, e.step, e.trial);
      OnlyLiveChanges(s, Turn(s, e));
      var changed := ClassChanges(s.world.live, Turn(s, e).world.live);
      forall job ensures job in changed <==> MovedBeforeRaise(s, e, job) {
      }
    }
  }

  /**
  The swaps reported over a run are the class changes made in it if and only if no rebind of the run raised after
  it had a session to move.
  */
  lemma {:induction false} ReportsExactly(s0: State, events: seq<Event>, n: nat)
    requires IsStart(s0) && n <= |events|
    ensures Swaps(After(s0, events, n).world.reports) == Moves(s0, events, n)
            <==> forall i, job :: 0 <= i < n ==> !MovedBeforeRaise(After(s0, events, i), events[i], job)
  {
    hide MovedBeforeRaise, Swaps, Moves;
    SwapsReported(s0, events, n);
    LostExactly(s0, events, n);
  }

  lemma {:induction false} LostExactly(s0: State, events: seq<Event>, n: nat)
    requires IsStart(s0) && n <= |events|
    ensures Lost(s0, events, n) == 0
            <==> forall i, job :: 0 <= i < n ==> !MovedBeforeRaise(After(s0, events, i), events[i], job)
    decreases n
  {
    hide MovedBeforeRaise, LostMoves, Turn;
    if n > 0 {
      LostExactly(s0, events, n - 1);
      RunIsSound(s0, events, n - 1);
      LostMovesExactly(After(s0, events, n - 1), events[n - 1]);
    }
  }

  /** A rebind that raises at the second of two sessions has moved the first, swapped the class, and reports nothing. */
  lemma {:induction false} RaisingRebindLosesReport(w: World, step: Step, file: Import, cls: AgentClass, a: string, b: string)
    requires step.agentName in w.classes && Outcome(file, w.classes[step.agentName]) == Swapped(cls)
    requires a != b && w.order == [a, b] && w.live.Keys == {a, b}
    requires Due(w.live[a], step.agentName, cls) && Due(w.live[b], step.agentName, cls)
    requires cls != w.classes[step.agentName]
    ensures var now := Attempt(w, {}, step, Trial(file, {}, {b}));
            && now.classes[step.agentName] == cls && now.reports == w.reports
            && now.live[a].agent.cls == cls && now.live[b] == w.live[b]
  {
    hide Outcome, TableAfter, ClassChanges;
    assert [a, b][..1] == [a] && [a][..0] == [];
    assert Unreached([a], w.live, step.agentName, {b}) == {};
    assert Unreached([a, b], w.live, step.agentName, {b}) == {b};
  }

  lemma {:induction false} NoSwaps()
    ensures Swaps([]) == 0
  {
  }

  /** An attempt leaves the sessions and the class of every other agent alone. */
  lemma {:induction false} OtherAgentsUntouched(w: World, pinned: set<string>, step: Step, trial: Trial)
    requires step.agentName in w.classes
    ensures var now := Attempt(w, pinned, step, trial);
            && now.live.Keys == w.live.Keys && now.classes.Keys == w.classes.Keys
            && (forall a :: a in w.classes && a != step.agentName ==> now.classes[a] == w.classes[a])
            && forall j :: j in w.live && w.live[j].agentName != step.agentName ==> now.live[j] == w.live[j]
  {
  }

  /**
  An attempt that fails, or escapes, changes no class and no session; that it leaves the module table too holds
  exactly under the rollback's condition.
  */
  lemma {:induction false} FailedAttemptKeepsWorld(w: World, pinned: set<string>, step: Step, trial: Trial)
    requires step.agentName in w.classes && AttemptResult(w, step, trial).Failed?
    ensures var now, name := Attempt(w, pinned, step, trial), ModuleName(step.path);
            && now.classes == w.classes && now.live == w.live
            && now.reports == w.reports + [ReloadFailed(step.agentName, step.path)]
            && (now.table == w.table
                <==> LeavesOthers(w.table, name, trial.file)
                     && (trial.file.Executed? && name in w.table ==> w.table[name].Some?))
  {
  }

  /**
  An attempt that swaps the class puts it in place and reports, once, how many sessions changed; where the rebind
  raises the class is in place as well but nothing is reported, and an import that escapes does neither.
  */
  lemma {:induction false} SwappedAttemptReports(w: World, pinned: set<string>, step: Step, trial: Trial)
    requires step.agentName in w.classes && !AttemptResult(w, step, trial).Failed?
    ensures var now, result := Attempt(w, pinned, step, trial), AttemptResult(w, step, trial);
            && now.classes[step.agentName] == (if result.Swapped? then result.cls else w.classes[step.agentName])
            && now.table == TableAfter(w.table, ModuleName(step.path), trial.file, w.classes[step.agentName])
            && now.reports == if Escapes(w, pinned, step, trial) then w.reports
                              else w.reports + [ReloadSwapped(step.agentName, step.path, |ClassChanges(w.live, now.live)|)]
  {
  }

  // ---------------------------------------------------------------------------------------------
  // From the watcher to the plan
  // ---------------------------------------------------------------------------------------------

  /**
  Each flush of the watcher tries each agent at most once: exactly once if the changes since the last flush,
  taken together, leave its source file written, and not at all if they leave it untouched or deleted.
  */
  lemma {:induction false} AgentOncePerFlush(resolve: Path -> Path, events: seq<FileWatcher.Event>, n: nat, i: nat,
                                             order: seq<string>, sources: map<string, Option<Path>>, name: string)
    requires n <= |events| && i < |FileWatcher.After(resolve, events, n).handed| && FileWatcher.Idempotent(resolve)
    requires Distinct(order) && name in order && name in sources
    ensures |FileWatcher.Groups(resolve, events, n)| == |FileWatcher.After(resolve, events, n).handed|
    ensures var changes := FileWatcher.Groups(resolve, events, n)[i];
            Count(Plan(order, sources, resolve, FileWatcher.After(resolve, events, n).handed[i]), name)
            == if sources[name].None? then 0
               else
                 var path := resolve(sources[name].value);
                 if FileWatcher.Touches(changes, path) && !FileWatcher.Verdict(changes, path).Deleted? then 1 else 0
  {
    hide Plan, Count, Writes, FileWatcher.After, FileWatcher.Groups, FileWatcher.Collapse, FileWatcher.Verdict,
         FileWatcher.Touches, FileWatcher.Has, FileWatcher.DistinctPaths;
    FileWatcher.FlushesHandCollapsed(resolve, events, n);
    FileWatcher.BufferResolved(resolve, events, n);
    var changes, handed := FileWatcher.Groups(resolve, events, n)[i], FileWatcher.After(resolve, events, n).handed[i];
    OneAttemptPerWrite(order, sources, resolve, handed, name);
    CollapseKeepsResolved(resolve, changes);
    if sources[name].Some? {
      FileWatcher.CollapseMeans(changes, resolve(sources[name].value));
      WritesExactly(handed, resolve, resolve(sources[name].value));
    }
  }

  lemma {:induction false} CollapseKeepsResolved(resolve: Path -> Path, changes: seq<FileWatcher.FileChange>)
    requires FileWatcher.Resolved(resolve, changes)
    ensures FileWatcher.Resolved(resolve, FileWatcher.Collapse(changes))
  {
    hide FileWatcher.Collapse, FileWatcher.Verdict;
    var collapsed := FileWatcher.Collapse(changes);
    forall i | 0 <= i < |collapsed| ensures resolve(collapsed[i].path) == collapsed[i].path {
      FileWatcher.CollapseMeans(changes, collapsed[i].path);
      assert FileWatcher.Touches(collapsed, collapsed[i].path);
    }
  }
}
