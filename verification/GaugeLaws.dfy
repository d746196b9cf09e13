/**
The metrics gauges against the calls themselves: in every reachable state each gauge is the number of
sessions that have started and not finished.
*/
module GaugeLaws {
  import opened Wrappers
  import opened Routing
  import opened RequestFilter
  import opened SessionRun
  import opened SessionLaws
  import opened CoroutinePool
  import opened Worker
  import opened WorkerLaws
  import opened Metrics

  /** What a session takes up: a place of its agent and one of its tenant. */
  datatype Resource = OfAgent(agent: string) | OfTenant(tenant: string)

  function Signals(e: Entry): seq<Signal> {
    if e.Running? then e.job.signals else []
  }

  predicate Uses(plan: Plan, r: Resource) {
    match r
    case OfAgent(agent) => plan.agent == agent
    case OfTenant(tenant) => plan.tenant == tenant
  }

  /** What a call was filed under when it was accepted. */
  predicate FiledUnder(call: Call, r: Resource) {
    match r
    case OfAgent(agent) => call.admittedAgent == Some(agent)
    case OfTenant(tenant) => call.admittedTenant == tenant
  }

  /** The session has started and its end is unreported. */
  predicate LiveEntry(e: Entry) {
    Starts(Signals(e)) > Ends(Signals(e))
  }

  /** How many ends it reported that were normal ones, or how many that were not. */
  function EndsAs(signals: seq<Signal>, ok: bool): nat
    decreases |signals|
  {
    if signals == [] then 0
    else
      var last := signals[|signals| - 1];
      EndsAs(signals[..|signals| - 1], ok) + if last.SignalFinished? && last.how.Returned? == ok then 1 else 0
  }

  datatype Group =
    | Live
    | LiveUsing(r: Resource)
    | Begun
    | Ended
    | EndedAs(r: Resource, ok: bool)
    | Failing
    | WaitingFor(r: Resource)  // let through, its session neither started nor given up
    | Accepted(r: Resource)    // the same, and past the user's own filter
    | Unfinished               // its task is not done

  predicate In(g: Group, e: Entry) {
    match g
    case Live => LiveEntry(e)
    case LiveUsing(r) => LiveEntry(e) && Uses(e.job.plan, r)
    case Begun => Starts(Signals(e)) > 0
    case Ended => Ends(Signals(e)) > 0
    case EndedAs(r, ok) => EndsAs(Signals(e), ok) > 0 && Uses(e.job.plan, r)
    case Failing => SessionLaws.Failures(Signals(e)) > 0
    case WaitingFor(r) =>
      FiledUnder(e.call, r)
      && (e.Deciding? || e.Waiting? || (e.Running? && Starts(e.job.signals) == 0 && !e.job.phase.Done?))
    case Accepted(r) =>
      FiledUnder(e.call, r)
      && (e.Waiting? || (e.Running? && Starts(e.job.signals) == 0 && !e.job.phase.Done?))
    case Unfinished => e.Running? && !e.job.phase.Done?
  }

  function Members(jobs: map<nat, Entry>, g: Group): set<nat> {
    set id | id in jobs && In(g, jobs[id])
  }

  function Count(jobs: map<nat, Entry>, g: Group): nat {
    |Members(jobs, g)|
  }

  function One(b: bool): nat {
    if b then 1 else 0
  }

  lemma {:induction false} MembersWithout(jobs: map<nat, Entry>, id: nat, g: Group)
    requires id in jobs
    ensures Members(jobs - {id}, g) == Members(jobs, g) - {id}
    ensures id in Members(jobs, g) <==> In(g, jobs[id])
  {
  }

  lemma {:induction false} SizeWithout(ids: set<nat>, id: nat)
    ensures |ids| == |ids - {id}| + One(id in ids)
  {
  }

  lemma {:induction false} CountWithout(jobs: map<nat, Entry>, id: nat, g: Group)
    requires id in jobs
    ensures Count(jobs, g) == Count(jobs - {id}, g) + One(In(g, jobs[id]))
  {
    hide In, Members;
    MembersWithout(jobs, id, g);
    SizeWithout(Members(jobs, g), id);
  }

  /** Changing one entry changes a count by that entry alone. */
  lemma {:induction false} CountUpdate(jobs: map<nat, Entry>, id: nat, e: Entry, g: Group)
    ensures Count(jobs[id := e], g) + One(id in jobs && In(g, jobs[id])) == Count(jobs, g) + One(In(g, e))
    ensures id in jobs && In(g, jobs[id]) ==> Count(jobs, g) > 0
  {
    hide In, Count;
    CountWithout(jobs[id := e], id, g);
    assert jobs[id := e] - {id} == jobs - {id};
    if id in jobs {
      CountWithout(jobs, id, g);
    } else {
      assert jobs - {id} == jobs;
    }
  }

  predicate CountsSignals(g: Group) {
    !g.WaitingFor? && !g.Accepted? && !g.Unfinished?
  }

  /** Two entries that reported the same, for the same plan, count alike. */
  lemma {:induction false} SameReportsCountAlike(jobs: map<nat, Entry>, id: nat, a: Entry, b: Entry, g: Group)
    requires CountsSignals(g) && a.Running? && b.Running?
    requires a.job.signals == b.job.signals && a.job.plan == b.job.plan
    ensures Count(jobs[id := a], g) == Count(jobs[id := b], g)
  {
    CountUpdate(jobs, id, a, g);
    CountUpdate(jobs, id, b, g);
  }

  function GaugeOf(c: Counters, r: Resource): int {
    match r
    case OfAgent(agent) => Gauge(c.byAgent, agent)
    case OfTenant(tenant) => Gauge(c.byTenant, tenant)
  }

  /** A gauge without zero or negative entries. */
  ghost predicate Positive(counts: map<string, int>) {
    forall key :: key in counts ==> counts[key] > 0
  }

  ghost predicate GaugesMatch(jobs: map<nat, Entry>, c: Counters) {
    && (forall r: Resource :: GaugeOf(c, r) == Count(jobs, LiveUsing(r)))
    && Positive(c.byAgent) && Positive(c.byTenant)
    && Sum(c.byAgent) == Sum(c.byTenant) == Count(jobs, Live)
    && c.started == Count(jobs, Begun)
    && c.failures == Count(jobs, Failing)
  }

  // ---------------------------------------------------------------------------------------------
  // One report
  // ---------------------------------------------------------------------------------------------

  /** A report that can follow the ones before it. */
  predicate Follows(before: seq<Signal>, x: Signal) {
    match x
    case SignalStarted => before == []
    case SignalFailed(_) => Starts(before) == 1 && Ends(before) == 0 && SessionLaws.Failures(before) == 0
    case SignalFinished(_) => Starts(before) == 1 && Ends(before) == 0
  }

  function ReportOf(plan: Plan, x: Signal): Report {
    match x
    case SignalStarted => Started(plan.agent, plan.tenant)
    case SignalFailed(error) => Failed(plan.agent, plan.tenant, error)
    case SignalFinished(_) => Finished(plan.agent, plan.tenant)
  }

  function Reporting(e: Entry, signals: seq<Signal>): Entry
    requires e.Running?
  {
    e.(job := e.job.(signals := signals))
  }

  lemma {:induction false} CountsAppend(before: seq<Signal>, x: Signal)
    ensures Starts(before + [x]) == Starts(before) + One(x.SignalStarted?)
    ensures Ends(before + [x]) == Ends(before) + One(x.SignalFinished?)
    ensures SessionLaws.Failures(before + [x]) == SessionLaws.Failures(before) + One(x.SignalFailed?)
  {
  }

  /** The gauge of every resource moves with the sessions using it. */
  lemma {:induction false} GaugeMoves(c: Counters, plan: Plan, x: Signal, r: Resource)
    requires x.SignalFinished? ==> Gauge(c.byAgent, plan.agent) > 0 && Gauge(c.byTenant, plan.tenant) > 0
    ensures GaugeOf(Metrics.Count(c, ReportOf(plan, x)), r)
            == GaugeOf(c, r) + if !Uses(plan, r) || x.SignalFailed? then 0 else if x.SignalStarted? then 1 else -1
  {
  }

  lemma {:induction false} DecrementOne(counts: map<string, int>, key: string)
    requires Positive(counts) && Gauge(counts, key) > 0
    ensures Positive(Decrement(counts, key)) && Sum(Decrement(counts, key)) == Sum(counts) - 1
  {
    SumUpdates(counts, key, Gauge(counts, key) - 1);
    SumRemoves(counts, key);
  }

  lemma {:induction false} IncrementOne(counts: map<string, int>, key: string)
    requires Positive(counts)
    ensures Positive(Increment(counts, key)) && Sum(Increment(counts, key)) == Sum(counts) + 1
  {
    SumUpdates(counts, key, Gauge(counts, key) + 1);
  }

  lemma {:induction false} CountMoves(jobs: map<nat, Entry>, id: nat, x: Signal, g: Group)
    requires CountsSignals(g) && id in jobs && jobs[id].Running? && Follows(jobs[id].job.signals, x)
    ensures var e := jobs[id];
            var after := Count(jobs[id := Reporting(e, e.job.signals + [x])], g);
            match g
            case Live => after == Count(jobs, g) + One(x.SignalStarted?) - One(x.SignalFinished?)
            case LiveUsing(r) =>
              after == Count(jobs, g) + One(x.SignalStarted? && Uses(e.job.plan, r))
                       - One(x.SignalFinished? && Uses(e.job.plan, r))
            case Begun => after == Count(jobs, g) + One(x.SignalStarted?)
            case Ended => after == Count(jobs, g) + One(x.SignalFinished?)
            case Failing => after == Count(jobs, g) + One(x.SignalFailed?)
            case _ => true
    ensures x.SignalFinished? && (g.LiveUsing? ==> Uses(jobs[id].job.plan, g.r)) && (g.Live? || g.LiveUsing?) ==>
              Count(jobs, g) > 0
  {
    hide Count;
    var e := jobs[id];
    CountUpdate(jobs, id, Reporting(e, e.job.signals + [x]), g);
    CountsAppend(e.job.signals, x);
    assert Starts([]) == 0 && Ends([]) == 0 && SessionLaws.Failures([]) == 0;
  }

  lemma {:induction false} ReportKeepsGauges(jobs: map<nat, Entry>, c: Counters, id: nat, x: Signal)
    requires GaugesMatch(jobs, c)
    requires id in jobs && jobs[id].Running? && Follows(jobs[id].job.signals, x)
    ensures GaugesMatch(jobs[id := Reporting(jobs[id], jobs[id].job.signals + [x])],
                        Metrics.Count(c, ReportOf(jobs[id].job.plan, x)))
  {
    hide Count, Sum, In, Follows, Increment, Decrement, Gauge;
    var e := jobs[id];
    var plan := e.job.plan;
    var jobs' := jobs[id := Reporting(e, e.job.signals + [x])];
    var c' := Metrics.Count(c, ReportOf(plan, x));
    CountMoves(jobs, id, x, Live);
    CountMoves(jobs, id, x, Begun);
    CountMoves(jobs, id, x, Failing);
    CountMoves(jobs, id, x, LiveUsing(OfAgent(plan.agent)));
    CountMoves(jobs, id, x, LiveUsing(OfTenant(plan.tenant)));
    assert GaugeOf(c, OfAgent(plan.agent)) == Count(jobs, LiveUsing(OfAgent(plan.agent)));
    assert GaugeOf(c, OfTenant(plan.tenant)) == Count(jobs, LiveUsing(OfTenant(plan.tenant)));
    forall r: Resource ensures GaugeOf(c', r) == Count(jobs', LiveUsing(r)) {
      GaugeMoves(c, plan, x, r);
      CountMoves(jobs, id, x, LiveUsing(r));
    }
    match x {
      case SignalStarted =>
        IncrementOne(c.byAgent, plan.agent);
        IncrementOne(c.byTenant, plan.tenant);
      case SignalFinished(_) =>
        DecrementOne(c.byAgent, plan.agent);
        DecrementOne(c.byTenant, plan.tenant);
      case SignalFailed(_) =>
    }
  }

  // ---------------------------------------------------------------------------------------------
  // One step of a task
  // ---------------------------------------------------------------------------------------------

  ghost predicate AllFollow(before: seq<Signal>, news: seq<Signal>) {
    forall i :: 0 <= i < |news| ==> Follows(before + news[..i], news[i])
  }

  /** Any beginning of a session's full report, continued, follows step by step. */
  lemma {:induction false} PrefixFollows(before: seq<Signal>, all: seq<Signal>, how: Ending)
    requires before <= all <= Reported(how)
    ensures AllFollow(before, all[|before|..])
  {
    hide Follows;
    var news, full := all[|before|..], Reported(how);
    forall i | 0 <= i < |news| ensures Follows(before + news[..i], news[i]) {
      var k := |before| + i;
      assert before + news[..i] == full[..k] && news[i] == full[k];
      FullReportFollows(how, k);
    }
  }

  lemma {:induction false} FullReportFollows(how: Ending, k: nat)
    requires k < |Reported(how)|
    ensures Follows(Reported(how)[..k], Reported(how)[k])
  {
    CountsOfReports(how);
    CountsOfReports(Returned);
    var full := Reported(how);
    assert full[..0] == [];
    assert full[..1] == Unreported(Returned);
    assert full[..|full| - 1] == Unreported(how);
  }

  /** The reports a sound call has made are the beginning of some full report. */
  lemma {:induction false} SoundIsPrefix(j: Job) returns (how: Ending)
    requires Sound(j)
    ensures j.signals <= Reported(how)
  {
    how := Returned;
    if j.signals != [] {
      var last := j.signals[|j.signals| - 1];
      if last.SignalFinished? {
        how := last.how;
      } else if last.SignalFailed? {
        how := Ending.Raised(last.error);
      }
    }
    if j.pending.Some? && j.pending.value.Raised? {
      assert j.signals == Unreported(j.pending.value);
    }
  }

  ghost predicate Extends(before: Job, after: Job) {
    before.signals <= after.signals && after.plan == before.plan
  }

  lemma {:induction false} EntrypointEndedExtends(j: Job, how: Ending)
    ensures Extends(j, EntrypointEnded(j, how)) && Extends(j, EnterFinally(j, how))
  {
    hide EnterFinally;
    EnterFinallyExtends(j, how);
    EnterFinallyExtends(Settle(j, FAILED), Cancelled);
    EnterFinallyExtends(Settle(j, FAILED), Returned);
    EnterFinallyExtends(Settle(j, SUCCESS), Returned);
  }

  lemma {:induction false} EnterFinallyExtends(j: Job, how: Ending)
    ensures Extends(j, EnterFinally(j, how))
  {
  }

  lemma {:induction false} BodyResumedExtends(j: Job, stage: Stage, how: Ending)
    ensures Extends(j, BodyResumed(j, stage, how))
  {
    hide EntrypointEnded;
    var seen := if how.Raised? then j.(signals := j.signals + [SignalFailed(how.error)]) else j;
    EntrypointEndedExtends(seen.(pending := Some(how)), how);
  }

  /** A step only adds reports. */
  lemma {:induction false} StepAppends(j: Job, e: TaskEvent)
    requires Enabled(j, e)
    ensures Extends(j, Step(j, e))
  {
    hide EntrypointEnded, BodyResumed, EnterFinally;
    if e.FirstStep? {
      EntrypointEndedExtends(j, e.build);
    } else if e.Resume? {
      var k := j.(cancelRequested := false);
      match j.phase {
        case Body(stage) => BodyResumedExtends(k, stage, e.how);
        case InlineEnd(ends) => EntrypointEndedExtends(k, if e.how.Cancelled? then Cancelled else ends);
        case HeldOpen => EntrypointEndedExtends(Settle(k, FAILED), Cancelled);
        case TearingDown =>
          EntrypointEndedExtends(Settle(k, SUCCESS), Returned);
          EntrypointEndedExtends(k, Cancelled);
        case _ =>
      }
    }
  }

  lemma {:induction false} StepFollows(j: Job, e: TaskEvent)
    requires Enabled(j, e) && Sound(j)
    ensures AllFollow(j.signals, News(j, Step(j, e)))
    ensures Step(j, e).signals == j.signals + News(j, Step(j, e)) && Step(j, e).plan == j.plan
  {
    hide Step, Sound, Reported;
    StepAppends(j, e);
    StepSound(j, e);
    var how := SoundIsPrefix(Step(j, e));
    PrefixFollows(j.signals, Step(j, e).signals, how);
  }

  /** Feeding a step's reports one by one keeps every gauge. */
  lemma {:induction false} FeedKeepsGauges(jobs: map<nat, Entry>, m: Metrics.State, id: nat, news: seq<Signal>)
    requires GaugesMatch(jobs, m.counters) && id in jobs && jobs[id].Running?
    requires AllFollow(jobs[id].job.signals, news)
    ensures GaugesMatch(jobs[id := Reporting(jobs[id], jobs[id].job.signals + news)],
                        Feed(m, jobs[id].job.plan, news).counters)
    decreases |news|
  {
    hide GaugesMatch, Follows, Metrics.Count;
    var e := jobs[id];
    if news == [] {
      assert e.job.signals + news == e.job.signals;
      assert Reporting(e, e.job.signals) == e;
      assert jobs[id := e] == jobs;
    } else {
      var init, x := news[..|news| - 1], news[|news| - 1];
      assert AllFollow(e.job.signals, init) by {
        assert forall i :: 0 <= i < |init| ==> news[..i] == init[..i];
      }
      FeedKeepsGauges(jobs, m, id, init);
      var midway := jobs[id := Reporting(e, e.job.signals + init)];
      ReportKeepsGauges(midway, Feed(m, e.job.plan, init).counters, id, x);
      assert e.job.signals + init + [x] == e.job.signals + news;
      assert midway[id := Reporting(e, e.job.signals + news)] == jobs[id := Reporting(e, e.job.signals + news)];
      FeedLast(m, e.job.plan, news);
    }
  }

  lemma {:induction false} FeedLast(m: Metrics.State, plan: Plan, news: seq<Signal>)
    requires news != []
    ensures Feed(m, plan, news).counters
            == Metrics.Count(Feed(m, plan, news[..|news| - 1]).counters, ReportOf(plan, news[|news| - 1]))
  {
  }

  lemma {:induction false} TaskKeepsGauges(w: World, s: Worker.State, id: nat, event: TaskEvent)
    requires GaugesMatch(s.jobs, s.metrics.counters) && id in s.jobs && s.jobs[id].Running?
    requires Sound(s.jobs[id].job) && Enabled(s.jobs[id].job, event)
    ensures var t := TaskNext(w, s, id, s.jobs[id], Step(s.jobs[id].job, event));
            GaugesMatch(t.jobs, t.metrics.counters)
  {
    hide Step, Sound, AllFollow, Feed, Judge, Sum, In, Count;
    var e := s.jobs[id];
    var after := Step(e.job, event);
    var news := News(e.job, after);
    StepFollows(e.job, event);
    FeedKeepsGauges(s.jobs, s.metrics, id, news);
    var a, b := Reporting(e, e.job.signals + news), e.(job := after);
    SameReportsCountAlike(s.jobs, id, a, b, Live);
    SameReportsCountAlike(s.jobs, id, a, b, Begun);
    SameReportsCountAlike(s.jobs, id, a, b, Failing);
    forall r: Resource ensures Count(s.jobs[id := a], LiveUsing(r)) == Count(s.jobs[id := b], LiveUsing(r)) {
      SameReportsCountAlike(s.jobs, id, a, b, LiveUsing(r));
    }
  }

  /** An entry that has reported nothing, before and after, moves no gauge. */
  lemma {:induction false} SilentKeepsGauges(jobs: map<nat, Entry>, c: Counters, id: nat, e: Entry)
    requires GaugesMatch(jobs, c)
    requires (id in jobs ==> Signals(jobs[id]) == []) && Signals(e) == []
    ensures GaugesMatch(jobs[id := e], c)
  {
    hide Count, Sum;
    assert Starts([]) == 0 && Ends([]) == 0 && SessionLaws.Failures([]) == 0;
    CountUpdate(jobs, id, e, Live);
    CountUpdate(jobs, id, e, Begun);
    CountUpdate(jobs, id, e, Failing);
    forall r: Resource ensures Count(jobs[id := e], LiveUsing(r)) == Count(jobs, LiveUsing(r)) {
      CountUpdate(jobs, id, e, LiveUsing(r));
    }
  }

  lemma {:induction false} RetiredKeepsGauges(jobs: map<nat, Entry>, c: Counters, id: nat)
    requires GaugesMatch(jobs, c) && id in jobs && jobs[id].Running?
    ensures GaugesMatch(jobs[id := jobs[id].(retired := true)], c)
  {
    hide Count, Sum;
    var e, e' := jobs[id], jobs[id].(retired := true);
    assert jobs[id := e] == jobs;
    SameReportsCountAlike(jobs, id, e, e', Live);
    SameReportsCountAlike(jobs, id, e, e', Begun);
    SameReportsCountAlike(jobs, id, e, e', Failing);
    forall r: Resource ensures Count(jobs[id := e'], LiveUsing(r)) == Count(jobs, LiveUsing(r)) {
      SameReportsCountAlike(jobs, id, e, e', LiveUsing(r));
    }
  }

  lemma {:induction false} TurnKeepsGauges(w: World, s: Worker.State, e: Event)
    requires JobsOk(w, s.jobs) && GaugesMatch(s.jobs, s.metrics.counters)
    ensures GaugesMatch(Turn(w, s, e).jobs, Turn(w, s, e).metrics.counters)
  {
    hide Step, CallOf, Feed, Judge, Launch, Retire, Verdict, Enabled, Buildable, PreConnect, PlanOf, AllDone,
         GaugesMatch, TaskNext, EntryOk, Sound;
    if Happens(w, s, e) {
      match e {
        case Offer(id, ctx, _) =>
          SilentKeepsGauges(s.jobs, s.metrics.counters, id, Waiting(CallOf(w, ctx)));
          SilentKeepsGauges(s.jobs, s.metrics.counters, id, Deciding(CallOf(w, ctx)));
        case Answer(id, _) =>
          SilentKeepsGauges(s.jobs, s.metrics.counters, id, Waiting(s.jobs[id].call));
          SilentKeepsGauges(s.jobs, s.metrics.counters, id, Gone(s.jobs[id].call));
        case Withdraw(id) => SilentKeepsGauges(s.jobs, s.metrics.counters, id, Gone(s.jobs[id].call));
        case LaunchJob(id, shape, _) =>
          var call := s.jobs[id].call;
          SilentKeepsGauges(s.jobs, s.metrics.counters, id, Gone(call));
          SilentKeepsGauges(s.jobs, s.metrics.counters, id, Misfired(call));
          SilentKeepsGauges(s.jobs, s.metrics.counters, id, Running(call, Launched(PlanOf(w, call, shape)), false));
        case Task(id, event) =>
          RunningSound(w, s.jobs[id]);
          TaskKeepsGauges(w, s, id, event);
        case DoneCallback(id) => RetiredKeepsGauges(s.jobs, s.metrics.counters, id);
        case _ =>
      }
    }
  }

  lemma {:induction false} RunningSound(w: World, e: Entry)
    requires EntryOk(w, e) && e.Running?
    ensures Sound(e.job)
  {
  }

  lemma {:induction false} BootGauges()
    ensures GaugesMatch(Boot.jobs, Boot.metrics.counters)
  {
  }

  lemma {:induction false} ReachableGauges(w: World, events: seq<Event>, n: nat)
    requires n <= |events|
    ensures GaugesMatch(After(w, events, n).jobs, After(w, events, n).metrics.counters)
    decreases n
  {
    hide Turn, GaugesMatch;
    if n == 0 {
      BootGauges();
    } else {
      ReachableGauges(w, events, n - 1);
      ReachableJobsOk(w, events, n - 1);
      TurnKeepsGauges(w, After(w, events, n - 1), events[n - 1]);
    }
  }

  /** Every begun session is live or finished, never both, and only begun ones fail. */
  lemma {:induction false} BegunSplits(w: World, jobs: map<nat, Entry>)
    requires JobsOk(w, jobs)
    ensures Count(jobs, Begun) == Count(jobs, Live) + Count(jobs, Ended)
    ensures Count(jobs, Failing) <= Count(jobs, Begun)
  {
    hide EntryOk, Sound;
    forall id | id in jobs
      ensures In(Begun, jobs[id]) <==> In(Live, jobs[id]) || In(Ended, jobs[id])
      ensures !(In(Live, jobs[id]) && In(Ended, jobs[id]))
      ensures In(Failing, jobs[id]) ==> In(Begun, jobs[id])
    {
      assert Starts([]) == 0 && Ends([]) == 0 && SessionLaws.Failures([]) == 0;
      if jobs[id].Running? {
        RunningSound(w, jobs[id]);
        SoundCounts(jobs[id].job);
      }
    }
    assert Members(jobs, Begun) == Members(jobs, Live) + Members(jobs, Ended);
    assert Members(jobs, Live) !! Members(jobs, Ended);
    SubsetSize(Members(jobs, Failing), Members(jobs, Begun));
  }

  lemma {:induction false} SubsetSize(a: set<nat>, b: set<nat>)
    requires a <= b
    ensures |a| <= |b|
  {
    assert b == a + (b - a);
  }

  /**
  Gauge conservation: in every reachable state the gauge of each agent and each tenant is the number of
  live sessions with it, no zero entry is kept, both maps add up to the number of live sessions, and
  sessions started are those live plus those finished, and failures are those whose body raised, never more.
  */
  lemma {:induction false} GaugesConserved(w: World, events: seq<Event>, n: nat)
    requires n <= |events|
    ensures var s := After(w, events, n);
            var c := s.metrics.counters;
            && (forall agent: string :: Gauge(c.byAgent, agent) == Count(s.jobs, LiveUsing(OfAgent(agent))))
            && (forall tenant: string :: Gauge(c.byTenant, tenant) == Count(s.jobs, LiveUsing(OfTenant(tenant))))
            && Positive(c.byAgent) && Positive(c.byTenant)
            && Sum(c.byAgent) == Sum(c.byTenant) == Count(s.jobs, Live)
            && c.started == Count(s.jobs, Live) + Count(s.jobs, Ended)
            && c.failures == Count(s.jobs, Failing) <= c.started
  {
    hide Turn, Count, Sum;
    ReachableGauges(w, events, n);
    ReachableJobsOk(w, events, n);
    var s := After(w, events, n);
    BegunSplits(w, s.jobs);
    var c := s.metrics.counters;
    forall agent: string ensures Gauge(c.byAgent, agent) == Count(s.jobs, LiveUsing(OfAgent(agent))) {
      assert GaugeOf(c, OfAgent(agent)) == Count(s.jobs, LiveUsing(OfAgent(agent)));
    }
    forall tenant: string ensures Gauge(c.byTenant, tenant) == Count(s.jobs, LiveUsing(OfTenant(tenant))) {
      assert GaugeOf(c, OfTenant(tenant)) == Count(s.jobs, LiveUsing(OfTenant(tenant)));
    }
  }
}
