/**
The tenant breaker inside a worker (src/openrtc/core/wiring.py, lines 152 to 155, and
src/openrtc/routing/request_filter.py, lines 243 to 270): it is fed by the ends of sessions and asked by
admission, and in every run it is the breaker of exactly those calls.
*/
module BreakerLaws {
  import opened Wrappers
  import opened Text
  import opened Routing
  import opened RequestFilter
  import opened SessionRun
  import opened SessionLaws
  import opened CoroutinePool
  import opened Worker
  import opened WorkerLaws
  import opened GaugeLaws
  import opened SoftCapLaws
  import CircuitBreaker

  // ---------------------------------------------------------------------------------------------
  // The calls a run makes
  // ---------------------------------------------------------------------------------------------

  /** One outcome for each end a session reports. */
  function Outcomes(plan: Plan, news: seq<Signal>, now: real): seq<CircuitBreaker.Call>
    decreases |news|
  {
    if news == [] then []
    else
      var last := news[|news| - 1];
      Outcomes(plan, news[..|news| - 1], now)
      + if last.SignalFinished? then [CircuitBreaker.Outcome(plan.tenant, last.how.Returned?, now)] else []
  }

  /** The calls one event makes: admission asks about the dispatched tenant, a task's step reports its ends. */
  function CallsOf(w: World, s: State, e: Event): seq<CircuitBreaker.Call> {
    if !Happens(w, s, e) then []
    else
      match e
      case Offer(_, ctx, _) => [CircuitBreaker.Query(RequestTenant(w.parse, ctx.job), s.now)]
      case Task(id, event) =>
        var job := s.jobs[id].job;
        Outcomes(Step(job, event).plan, News(job, Step(job, event)), s.now)
      case _ => []
  }

  function History(w: World, events: seq<Event>, n: nat): seq<CircuitBreaker.Call>
    requires n <= |events|
    decreases n
  {
    if n == 0 then [] else History(w, events, n - 1) + CallsOf(w, After(w, events, n - 1), events[n - 1])
  }

  function StateAfter(w: World, calls: seq<CircuitBreaker.Call>): CircuitBreaker.State {
    CircuitBreaker.Run(w.rule, calls, |calls|).state
  }

  lemma {:induction false} RunOneMore(w: World, calls: seq<CircuitBreaker.Call>, call: CircuitBreaker.Call)
    ensures StateAfter(w, calls + [call])
            == CircuitBreaker.Perform(w.rule, CircuitBreaker.Run(w.rule, calls, |calls|), call).state
  {
    hide CircuitBreaker.Perform;
    CircuitBreaker.RunIgnoresLaterCalls(w.rule, calls, [call], |calls|);
  }

  lemma {:induction false} JudgeIsRun(w: World, calls: seq<CircuitBreaker.Call>, plan: Plan, news: seq<Signal>, now: real)
    ensures Judge(w.rule, StateAfter(w, calls), plan, news, now) == StateAfter(w, calls + Outcomes(plan, news, now))
    decreases |news|
  {
    hide CircuitBreaker.Record, StateAfter;
    if news == [] {
      assert calls + [] == calls;
    } else {
      var init, last := news[..|news| - 1], news[|news| - 1];
      JudgeIsRun(w, calls, plan, init, now);
      var before := calls + Outcomes(plan, init, now);
      if last.SignalFinished? {
        var call := CircuitBreaker.Outcome(plan.tenant, last.how.Returned?, now);
        RunOneMore(w, before, call);
        OutcomeIsRecord(w, before, call);
        assert calls + (Outcomes(plan, init, now) + [call]) == before + [call];
      } else {
        assert Outcomes(plan, init, now) + [] == Outcomes(plan, init, now);
      }
    }
  }

  lemma {:induction false} OutcomeIsRecord(w: World, calls: seq<CircuitBreaker.Call>, call: CircuitBreaker.Call)
    requires call.Outcome?
    ensures CircuitBreaker.Perform(w.rule, CircuitBreaker.Run(w.rule, calls, |calls|), call).state
            == CircuitBreaker.Record(w.rule, StateAfter(w, calls), call.tenant, call.ok, call.at)
  {
  }

  lemma {:induction false} QueryIsAsk(w: World, calls: seq<CircuitBreaker.Call>, t: string, now: real)
    ensures StateAfter(w, calls + [CircuitBreaker.Query(t, now)]) == CircuitBreaker.Ask(StateAfter(w, calls), t, now).0
  {
    RunOneMore(w, calls, CircuitBreaker.Query(t, now));
  }

  lemma {:induction false} TurnIsRun(w: World, s: State, e: Event, calls: seq<CircuitBreaker.Call>)
    requires w.options.breaker && s.breaker == StateAfter(w, calls)
    ensures Turn(w, s, e).breaker == StateAfter(w, calls + CallsOf(w, s, e))
  {
    hide Step, CallOf, Feed, Judge, Launch, Retire, Verdict, Enabled, Buildable, PreConnect, PlanOf, AllDone, StateAfter,
         Outcomes, RequestTenant, CircuitBreaker.Ask, News;
    assert calls + [] == calls;
    if Happens(w, s, e) {
      match e {
        case Offer(_, ctx, _) => QueryIsAsk(w, calls, RequestTenant(w.parse, ctx.job), s.now);
        case Task(id, event) =>
          var job := s.jobs[id].job;
          JudgeIsRun(w, calls, Step(job, event).plan, News(job, Step(job, event)), s.now);
        case _ =>
      }
    }
  }

  /** In every run the worker's breaker is the breaker of the calls the run makes. */
  lemma {:induction false} BreakerIsRun(w: World, events: seq<Event>, n: nat)
    requires w.options.breaker && n <= |events|
    ensures After(w, events, n).breaker == StateAfter(w, History(w, events, n))
    decreases n
  {
    hide Turn, CallsOf;
    if n > 0 {
      BreakerIsRun(w, events, n - 1);
      TurnIsRun(w, After(w, events, n - 1), events[n - 1], History(w, events, n - 1));
    }
  }

  // ---------------------------------------------------------------------------------------------
  // Their clock
  // ---------------------------------------------------------------------------------------------

  /** In order, and none later than now. */
  ghost predicate InTime(calls: seq<CircuitBreaker.Call>, now: real) {
    CircuitBreaker.Monotone(calls) && forall i :: 0 <= i < |calls| ==> calls[i].at <= now
  }

  lemma {:induction false} OutcomesAtNow(plan: Plan, news: seq<Signal>, now: real)
    ensures forall i :: 0 <= i < |Outcomes(plan, news, now)| ==>
              var c := Outcomes(plan, news, now)[i]; c.Outcome? && c.at == now && c.tenant == plan.tenant
    decreases |news|
  {
    if news != [] {
      OutcomesAtNow(plan, news[..|news| - 1], now);
    }
  }

  lemma {:induction false} TurnInTime(w: World, s: State, e: Event, calls: seq<CircuitBreaker.Call>)
    requires InTime(calls, s.now)
    ensures InTime(calls + CallsOf(w, s, e), Turn(w, s, e).now)
  {
    hide Step, CallOf, Feed, Judge, Launch, Retire, Verdict, Enabled, Buildable, PreConnect, PlanOf, AllDone, Outcomes, News,
         RequestTenant;
    if Happens(w, s, e) && e.Task? {
      var job := s.jobs[e.id].job;
      OutcomesAtNow(Step(job, e.event).plan, News(job, Step(job, e.event)), s.now);
    }
  }

  lemma {:induction false} TurnOfClock(w: World, s: State, e: Event)
    ensures Turn(w, s, e).now == if e.Tick? && s.now <= e.to then e.to else s.now
  {
    hide Step, CallOf, Feed, Judge, Launch, Retire, Verdict, Enabled, Buildable, PreConnect, PlanOf, AllDone;
  }

  /** The worker's clock shows the latest time it was told, from zero on. */
  lemma {:induction false} ClockIsLatest(w: World, events: seq<Event>, n: nat)
    requires n <= |events|
    ensures var now := After(w, events, n).now;
            && 0.0 <= now && (forall i :: 0 <= i < n && events[i].Tick? ==> events[i].to <= now)
            && (now == 0.0 || exists i :: 0 <= i < n && events[i] == Tick(now))
    decreases n
  {
    hide Turn;
    if n > 0 {
      ClockIsLatest(w, events, n - 1);
      TurnOfClock(w, After(w, events, n - 1), events[n - 1]);
    }
  }

  lemma {:induction false} HistoryInTime(w: World, events: seq<Event>, n: nat)
    requires n <= |events|
    ensures InTime(History(w, events, n), After(w, events, n).now)
    decreases n
  {
    hide Turn, CallsOf;
    if n > 0 {
      HistoryInTime(w, events, n - 1);
      TurnInTime(w, After(w, events, n - 1), events[n - 1], History(w, events, n - 1));
    }
  }

  // ---------------------------------------------------------------------------------------------
  // When the circuit layer refuses
  // ---------------------------------------------------------------------------------------------

  /** When the outcomes so far last opened the tenant's breaker. */
  function LastOpening(w: World, calls: seq<CircuitBreaker.Call>, t: string): Option<real> {
    CircuitBreaker.AccountOf(w.rule, calls, |calls|, t).last
  }

  lemma {:induction false} AskedIsAnswered(w: World, calls: seq<CircuitBreaker.Call>, t: string, now: real)
    requires InTime(calls, now)
    ensures CircuitBreaker.Ask(StateAfter(w, calls), t, now).1
            <==> LastOpening(w, calls, t).Some? && now < LastOpening(w, calls, t).value + w.rule.cooldown
  {
    hide CircuitBreaker.Ask, CircuitBreaker.StepAccount;
    var all := calls + [CircuitBreaker.Query(t, now)];
    CircuitBreaker.AnswerIsCooldown(w.rule, all, |calls|, t);
    CircuitBreaker.RunIgnoresLaterCalls(w.rule, calls, [CircuitBreaker.Query(t, now)], |calls|);
    AccountIgnoresLater(w, calls, [CircuitBreaker.Query(t, now)], |calls|, t);
    var before, after := CircuitBreaker.Run(w.rule, calls, |calls|), CircuitBreaker.Run(w.rule, all, |calls| + 1);
    assert after.answers[|before.answers|]
           == CircuitBreaker.Answer(t, CircuitBreaker.Ask(before.state, t, now).1);
  }

  lemma {:induction false} AccountIgnoresLater(w: World, calls: seq<CircuitBreaker.Call>, later: seq<CircuitBreaker.Call>,
                                               n: nat, t: string)
    requires n <= |calls|
    ensures CircuitBreaker.AccountOf(w.rule, calls + later, n, t) == CircuitBreaker.AccountOf(w.rule, calls, n, t)
    decreases n
  {
    hide CircuitBreaker.StepAccount;
    if n > 0 {
      AccountIgnoresLater(w, calls, later, n - 1, t);
      assert (calls + later)[n - 1] == calls[n - 1];
    }
  }

  /**
  In every reachable state the circuit layer rejects a dispatch exactly while less than a cooldown has passed
  since the finished sessions counted under the dispatched tenant last opened its breaker, and then the
  request is rejected whatever the other layers say.
  */
  lemma {:induction false} CircuitRefusesExactly(w: World, events: seq<Event>, n: nat, ctx: Context, reply: Option<Reply>)
    requires w.options.breaker && n <= |events|
    ensures var s, t := After(w, events, n), RequestTenant(w.parse, ctx.job);
            var tripped := LastOpening(w, History(w, events, n), t);
            && (ReadingsOf(s).rejects(t) <==> tripped.Some? && s.now < tripped.value + w.rule.cooldown)
            && (ReadingsOf(s).rejects(t) ==> Verdict(w, s, ctx, reply) == [Reject])
  {
    hide Turn, RequestTenant, RequestAgentName, CircuitBreaker.Ask, StateAfter, LastOpening, History, OwnsRoom, AtCap;
    BreakerIsRun(w, events, n);
    HistoryInTime(w, events, n);
    var s := After(w, events, n);
    AskedIsAnswered(w, History(w, events, n), RequestTenant(w.parse, ctx.job), s.now);
    StackDecides(Asked(w.options, reply), w.parse, w.agents, ReadingsOf(s), ctx.job);
  }

  // ---------------------------------------------------------------------------------------------
  // Whose outcomes they are
  // ---------------------------------------------------------------------------------------------

  function OutcomesOf(calls: seq<CircuitBreaker.Call>, t: string, ok: bool): nat
    decreases |calls|
  {
    if calls == [] then 0
    else
      var last := calls[|calls| - 1];
      OutcomesOf(calls[..|calls| - 1], t, ok) + One(last.Outcome? && last.tenant == t && last.ok == ok)
  }

  lemma {:induction false} OutcomesOfConcat(a: seq<CircuitBreaker.Call>, b: seq<CircuitBreaker.Call>, t: string, ok: bool)
    ensures OutcomesOf(a + b, t, ok) == OutcomesOf(a, t, ok) + OutcomesOf(b, t, ok)
    decreases |b|
  {
    if b == [] {
      assert a + b == a;
    } else {
      assert (a + b)[..|a + b| - 1] == a + b[..|b| - 1];
      OutcomesOfConcat(a, b[..|b| - 1], t, ok);
    }
  }

  lemma {:induction false} OutcomesAreEnds(plan: Plan, news: seq<Signal>, now: real, t: string, ok: bool)
    ensures OutcomesOf(Outcomes(plan, news, now), t, ok) == if plan.tenant == t then EndsAs(news, ok) else 0
    decreases |news|
  {
    if news != [] {
      var init, last := news[..|news| - 1], news[|news| - 1];
      OutcomesAreEnds(plan, init, now, t, ok);
      OutcomesOfConcat(Outcomes(plan, init, now),
                       if last.SignalFinished? then [CircuitBreaker.Outcome(plan.tenant, last.how.Returned?, now)] else [],
                       t, ok);
      OneOutcome(CircuitBreaker.Outcome(plan.tenant, last.SignalFinished? && last.how.Returned?, now), t, ok);
    }
  }

  lemma {:induction false} OneOutcome(call: CircuitBreaker.Call, t: string, ok: bool)
    ensures OutcomesOf([call], t, ok) == One(call.Outcome? && call.tenant == t && call.ok == ok) && OutcomesOf([], t, ok) == 0
  {
  }

  lemma {:induction false} EndsAsGrow(a: seq<Signal>, b: seq<Signal>, ok: bool)
    ensures EndsAs(a + b, ok) == EndsAs(a, ok) + EndsAs(b, ok)
    decreases |b|
  {
    if b == [] {
      assert a + b == a;
    } else {
      assert (a + b)[..|a + b| - 1] == a + b[..|b| - 1];
      EndsAsGrow(a, b[..|b| - 1], ok);
    }
  }

  lemma {:induction false} EndsAsAmongEnds(signals: seq<Signal>, ok: bool)
    ensures EndsAs(signals, ok) <= Ends(signals)
    decreases |signals|
  {
    if signals != [] {
      EndsAsAmongEnds(signals[..|signals| - 1], ok);
    }
  }

  lemma {:induction false} TaskJudged(w: World, e: Entry, event: TaskEvent, t: string, ok: bool)
    requires e.Running? && EntryOk(w, e) && Enabled(e.job, event) && Buildable(e.call, event)
    ensures var after := Step(e.job, event);
            var news := News(e.job, after);
            One(In(EndedAs(OfTenant(t), ok), e.(job := after)))
            == One(In(EndedAs(OfTenant(t), ok), e)) + (if after.plan.tenant == t then EndsAs(news, ok) else 0)
  {
    hide Step, Sound, CallOk, Starts, Ends, EndsAs, Enabled, News;
    TaskEntryOk(w, e, event);
    StepFollows(e.job, event);
    EndsAsGrow(e.job.signals, News(e.job, Step(e.job, event)), ok);
    EndsAsAmongEnds(Step(e.job, event).signals, ok);
    SoundCounts(Step(e.job, event));
  }

  lemma {:induction false} SilentEnded(e: Entry, t: string, ok: bool)
    requires Signals(e) == []
    ensures !In(EndedAs(OfTenant(t), ok), e)
  {
  }

  lemma {:induction false} RetiredEnded(e: Entry, t: string, ok: bool)
    requires e.Running?
    ensures In(EndedAs(OfTenant(t), ok), e.(retired := true)) == In(EndedAs(OfTenant(t), ok), e)
  {
  }

  lemma {:induction false} TurnJudged(w: World, s: State, e: Event, calls: seq<CircuitBreaker.Call>, t: string, ok: bool)
    requires JobsOk(w, s.jobs) && OutcomesOf(calls, t, ok) == Count(s.jobs, EndedAs(OfTenant(t), ok))
    ensures OutcomesOf(calls + CallsOf(w, s, e), t, ok) == Count(Turn(w, s, e).jobs, EndedAs(OfTenant(t), ok))
  {
    hide Step, CallOf, Feed, Judge, Launch, Retire, Verdict, Enabled, Buildable, PreConnect, PlanOf, AllDone, EntryOk, Count,
         Outcomes, OutcomesOf, RequestTenant, News, In;
    var g := EndedAs(OfTenant(t), ok);
    OutcomesOfConcat(calls, CallsOf(w, s, e), t, ok);
    OneOutcome(CircuitBreaker.Query("", 0.0), t, ok);
    if Happens(w, s, e) {
      match e {
        case Offer(id, ctx, _) =>
          OneOutcome(CircuitBreaker.Query(RequestTenant(w.parse, ctx.job), s.now), t, ok);
          SilentUpdate(s.jobs, id, Waiting(CallOf(w, ctx)), t, ok);
          SilentUpdate(s.jobs, id, Deciding(CallOf(w, ctx)), t, ok);
        case Answer(id, _) =>
          SilentUpdate(s.jobs, id, Waiting(s.jobs[id].call), t, ok);
          SilentUpdate(s.jobs, id, Gone(s.jobs[id].call), t, ok);
        case Withdraw(id) => SilentUpdate(s.jobs, id, Gone(s.jobs[id].call), t, ok);
        case LaunchJob(id, shape, _) =>
          var call := s.jobs[id].call;
          SilentUpdate(s.jobs, id, Gone(call), t, ok);
          SilentUpdate(s.jobs, id, Misfired(call), t, ok);
          SilentUpdate(s.jobs, id, Running(call, Launched(PlanOf(w, call, shape)), false), t, ok);
        case Task(id, event) =>
          var entry := s.jobs[id];
          var after := Step(entry.job, event);
          TaskJudged(w, entry, event, t, ok);
          CountUpdate(s.jobs, id, entry.(job := after), g);
          OutcomesAreEnds(after.plan, News(entry.job, after), s.now, t, ok);
        case DoneCallback(id) =>
          RetiredEnded(s.jobs[id], t, ok);
          CountUpdate(s.jobs, id, s.jobs[id].(retired := true), g);
        case _ =>
      }
    }
  }

  lemma {:induction false} SilentUpdate(jobs: map<nat, Entry>, id: nat, e: Entry, t: string, ok: bool)
    requires Signals(e) == [] && (id in jobs ==> Signals(jobs[id]) == [])
    ensures Count(jobs[id := e], EndedAs(OfTenant(t), ok)) == Count(jobs, EndedAs(OfTenant(t), ok))
  {
    hide In, Count;
    CountUpdate(jobs, id, e, EndedAs(OfTenant(t), ok));
    SilentEnded(e, t, ok);
    if id in jobs {
      SilentEnded(jobs[id], t, ok);
    }
  }

  /**
  The breaker hears of each finished session once, and rightly: a tenant's successes are its sessions that have ended
  normally, and its failures those that have ended otherwise.
  */
  lemma {:induction false} EachEndJudgedOnce(w: World, events: seq<Event>, n: nat, t: string, ok: bool)
    requires n <= |events|
    ensures OutcomesOf(History(w, events, n), t, ok) == Count(After(w, events, n).jobs, EndedAs(OfTenant(t), ok))
    decreases n
  {
    hide Turn, CallsOf, Count, OutcomesOf;
    if n == 0 {
      OneOutcome(CircuitBreaker.Query("", 0.0), t, ok);
      NobodyEnded(t, ok);
    } else {
      EachEndJudgedOnce(w, events, n - 1, t, ok);
      ReachableJobsOk(w, events, n - 1);
      TurnJudged(w, After(w, events, n - 1), events[n - 1], History(w, events, n - 1), t, ok);
    }
  }

  lemma {:induction false} NobodyEnded(t: string, ok: bool)
    ensures Count(Boot.jobs, EndedAs(OfTenant(t), ok)) == 0
  {
  }

  // ---------------------------------------------------------------------------------------------
  // A padded tenant has no breaker
  // ---------------------------------------------------------------------------------------------

  lemma {:induction false} SessionsAreUnpadded(w: World, e: Entry)
    requires EntryOk(w, e) && e.Running? && Ends(e.job.signals) > 0
    ensures Strip(e.job.plan.tenant) == e.job.plan.tenant
  {
    hide Sound, Strip, ResolveAgent, RequestTenant;
    assert e.call.session.Some?;
    SessionTenantIsStripped(w.parse, e.call.ctx);
    StripIdempotent(RequestTenant(w.parse, e.call.ctx.job));
  }

  lemma {:induction false} NobodyEndsPadded(w: World, jobs: map<nat, Entry>, t: string)
    requires JobsOk(w, jobs) && Strip(t) != t
    ensures forall ok: bool :: Count(jobs, EndedAs(OfTenant(t), ok)) == 0
  {
    hide EntryOk, Strip;
    forall ok: bool ensures Count(jobs, EndedAs(OfTenant(t), ok)) == 0 {
      forall id | id in jobs ensures !In(EndedAs(OfTenant(t), ok), jobs[id]) {
        EndsAsAmongEnds(Signals(jobs[id]), ok);
        if jobs[id].Running? && Ends(jobs[id].job.signals) > 0 {
          SessionsAreUnpadded(w, jobs[id]);
        } else {
          SilentCounts();
        }
      }
      assert Members(jobs, EndedAs(OfTenant(t), ok)) == {};
    }
  }

  lemma {:induction false} NoOutcomeNoOpening(w: World, calls: seq<CircuitBreaker.Call>, n: nat, t: string)
    requires n <= |calls| && forall ok: bool :: OutcomesOf(calls[..n], t, ok) == 0
    ensures var a := CircuitBreaker.AccountOf(w.rule, calls, n, t); a.last.None? && a.open.None?
    decreases n
  {
    if n > 0 {
      assert calls[..n][..n - 1] == calls[..n - 1];
      assert OutcomesOf(calls[..n], t, true) == 0 && OutcomesOf(calls[..n], t, false) == 0;
      NoOutcomeNoOpening(w, calls, n - 1, t);
    }
  }

  /**
  A dispatch whose tenant is padded evades its tenant's breaker: in no reachable state does the circuit layer
  reject it, however many of the tenant's sessions have failed.
  */
  lemma {:induction false} PaddedTenantEvades(w: World, events: seq<Event>, n: nat, ctx: Context)
    requires w.options.breaker && n <= |events|
    requires Strip(RequestTenant(w.parse, ctx.job)) != RequestTenant(w.parse, ctx.job)
    ensures !ReadingsOf(After(w, events, n)).rejects(RequestTenant(w.parse, ctx.job))
  {
    hide Turn, RequestTenant, Strip, History, OutcomesOf, Count, CircuitBreaker.Ask, CircuitBreaker.AccountOf;
    var t, calls := RequestTenant(w.parse, ctx.job), History(w, events, n);
    ReachableJobsOk(w, events, n);
    NobodyEndsPadded(w, After(w, events, n).jobs, t);
    forall ok: bool ensures OutcomesOf(calls, t, ok) == 0 {
      EachEndJudgedOnce(w, events, n, t, ok);
    }
    assert calls[..|calls|] == calls;
    NoOutcomeNoOpening(w, calls, |calls|, t);
    CircuitRefusesExactly(w, events, n, ctx, None);
  }
}
