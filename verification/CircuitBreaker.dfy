/**
The per-tenant circuit breaker (src/openrtc/core/circuit_breaker.py).

`Record` and `Ask` say what one call does to the breaker's two dictionaries; the class does the same
in place. The lemmas relate a whole run of calls to a description that never prunes and never deletes
lazily: keep every outcome since the last opening, look at those inside the window.
*/
module CircuitBreaker {
  import opened Wrappers

  datatype Sample = Sample(at: real, ok: bool)

  /** A state-change notification: the breaker of `tenant` opened or closed. */
  datatype Notice = Notice(tenant: string, isOpen: bool)

  /**
  When a queue trips the breaker, how far the window reaches back, and how long the breaker stays
  open. What runs keep does not depend on the rule, so the lemmas hold for every one.
  */
  datatype RuleData = Rule(trips: seq<Sample> -> bool, window: real, cooldown: real)

  /** A window reaches back in time, so the sample just taken is always inside it. */
  type Rule = c: RuleData | c.window >= 0.0 witness Rule(_ => false, 60.0, 30.0)

  type Span = s: real | s >= 0.0

  datatype State = State(outcomes: map<string, seq<Sample>>, openUntil: map<string, real>, notices: seq<Notice>)

  const Initial := State(map[], map[], [])

  /** One tenant's share of the two dictionaries. */
  datatype Cell = Cell(queue: seq<Sample>, until: Option<real>)

  function CellOf(s: State, tenant: string): Cell {
    Cell(if tenant in s.outcomes then s.outcomes[tenant] else [],
         if tenant in s.openUntil then Some(s.openUntil[tenant]) else None)
  }

  /** Drops old samples from the left end, stopping at the first young one. */
  function Prune(q: seq<Sample>, cutoff: real): (r: seq<Sample>)
    ensures q != [] && q[|q| - 1].at >= cutoff ==> r != []
    decreases |q|
  {
    if q != [] && q[0].at < cutoff then Prune(q[1..], cutoff) else q
  }

  function Failures(q: seq<Sample>): nat
    decreases |q|
  {
    if q == [] then 0 else Failures(q[..|q| - 1]) + if q[|q| - 1].ok then 0 else 1
  }

  /** The positions that are not successes. */
  ghost function FailedAt(q: seq<Sample>): set<nat> {
    set i: nat | i < |q| && !q[i].ok
  }

  /** A queue's failures are the positions that are not successes. */
  lemma {:induction false} FailuresArePositions(q: seq<Sample>)
    ensures Failures(q) == |FailedAt(q)|
    decreases |q|
  {
    if q != [] {
      var init := q[..|q| - 1];
      FailuresArePositions(init);
      assert FailedAt(q) == FailedAt(init) + if q[|q| - 1].ok then {} else {|q| - 1};
    }
  }

  lemma {:induction false} ShareAbove(part: nat, whole: nat, ratio: real)
    requires whole > 0
    ensures part as real / whole as real > ratio <==> part as real > ratio * whole as real
  {
  }

  /** Enough samples, and too large a share of them failures. */
  predicate TooManyFailures(failureRatio: real, minSamples: int, q: seq<Sample>) {
    q != [] && |q| >= minSamples && Failures(q) as real / |q| as real > failureRatio
  }

  function RatioRule(failureRatio: real, minSamples: int, window: Span, cooldown: real): Rule
  {
    Rule(q => TooManyFailures(failureRatio, minSamples, q), window, cooldown)
  }

  function RecordCell(c: Rule, cell: Cell, ok: bool, now: real): Cell {
    var q := Prune(cell.queue + [Sample(now, ok)], now - c.window);
    if cell.until.None? && c.trips(q) then Cell([], Some(now + c.cooldown)) else Cell(q, cell.until)
  }

  function AskCell(cell: Cell, now: real): Cell {
    if cell.until.Some? && now >= cell.until.value then cell.(until := None) else cell
  }

  function Record(c: Rule, s: State, tenant: string, ok: bool, now: real): State {
    var cell := RecordCell(c, CellOf(s, tenant), ok, now);
    var opens := tenant !in s.openUntil && cell.until.Some?;
    State(s.outcomes[tenant := cell.queue],
          if opens then s.openUntil[tenant := cell.until.value] else s.openUntil,
          if opens then s.notices + [Notice(tenant, true)] else s.notices)
  }

  /** The outcome joins the pruned queue; a closed breaker that trips on it opens and forgets the queue. */
  lemma {:induction false} RecordMeans(c: Rule, s: State, tenant: string, ok: bool, now: real)
    ensures var known := if tenant in s.outcomes then s.outcomes[tenant] else [];
            var q := Prune(known + [Sample(now, ok)], now - c.window);
            Record(c, s, tenant, ok, now)
            == if tenant in s.openUntil || !c.trips(q) then s.(outcomes := s.outcomes[tenant := q])
               else State(s.outcomes[tenant := []], s.openUntil[tenant := now + c.cooldown],
                          s.notices + [Notice(tenant, true)])
  {
  }

  /** Asking about a tenant without an open breaker touches nothing. */
  function Ask(s: State, tenant: string, now: real): (State, bool) {
    if tenant !in s.openUntil then (s, false)
    else if AskCell(CellOf(s, tenant), now).until.Some? then (s, true)
    else (s.(openUntil := s.openUntil - {tenant}, notices := s.notices + [Notice(tenant, false)]), false)
  }

  /** The breaker itself: dictionaries updated in place, recovery only when asked. */
  class TenantCircuitBreaker {
    const failureRatio: real
    const minSamples: int
    const window: Span
    const cooldown: real
    var outcomes: map<string, seq<Sample>>
    var openUntil: map<string, real>
    var notices: seq<Notice>

    constructor (failureRatio: real, minSamples: int, window: Span, cooldown: real)
      ensures TheRule() == RatioRule(failureRatio, minSamples, window, cooldown)
      ensures Model() == Initial
    {
      this.failureRatio, this.minSamples, this.window, this.cooldown := failureRatio, minSamples, window, cooldown;
      outcomes, openUntil, notices := map[], map[], [];
    }

    ghost function Model(): State
      reads this
    {
      State(outcomes, openUntil, notices)
    }

    ghost function TheRule(): (rule: Rule)
      ensures rule.window == window && rule.cooldown == cooldown
    {
      RatioRule(failureRatio, minSamples, window, cooldown)
    }

    method RecordOutcome(tenant: string, success: bool, now: real)
      modifies this
      ensures Model() == Record(TheRule(), old(Model()), tenant, success, now)
    {
      hide Prune, Record, RatioRule, TheRule;
      RecordMeans(TheRule(), Model(), tenant, success, now);
      ghost var before := outcomes;
      if tenant !in outcomes {
        outcomes := outcomes[tenant := []];
      }
      var queue := PruneQueue(outcomes[tenant] + [Sample(now, success)], now - window);
      outcomes := outcomes[tenant := queue];
      assert outcomes == before[tenant := queue];
      if tenant in openUntil {
        return;
      }
      var failing := FailuresTrip(queue);
      if failing {
        assert outcomes[tenant := []] == before[tenant := []];
        openUntil := openUntil[tenant := now + cooldown];
        outcomes := outcomes[tenant := []];
        notices := notices + [Notice(tenant, true)];
      }
    }

    method FailuresTrip(queue: seq<Sample>) returns (trip: bool)
      requires queue != []
      ensures trip == TheRule().trips(queue)
      ensures trip <==> |queue| >= minSamples && |FailedAt(queue)| as real > failureRatio * |queue| as real
    {
      hide Failures;
      FailuresArePositions(queue);
      ShareAbove(Failures(queue), |queue|, failureRatio);
      var total := |queue|;
      if total < minSamples {
        return false;
      }
      var failures := CountFailures(queue);
      return failures as real / total as real > failureRatio;
    }

    method ShouldReject(tenant: string, now: real) returns (reject: bool)
      modifies this
      ensures (Model(), reject) == Ask(old(Model()), tenant, now)
    {
      if tenant !in openUntil {
        return false;
      }
      if now >= openUntil[tenant] {
        openUntil := openUntil - {tenant};
        notices := notices + [Notice(tenant, false)];
        return false;
      }
      return true;
    }
  }

  method PruneQueue(queue: seq<Sample>, cutoff: real) returns (q: seq<Sample>)
    ensures q == Prune(queue, cutoff)
  {
    q := queue;
    while q != [] && q[0].at < cutoff
      invariant Prune(q, cutoff) == Prune(queue, cutoff)
    {
      q := q[1..];
    }
  }

  method CountFailures(q: seq<Sample>) returns (n: nat)
    ensures n == Failures(q) == |FailedAt(q)|
  {
    FailuresArePositions(q);
    n := 0;
    for i := 0 to |q|
      invariant n == Failures(q[..i])
    {
      assert q[..i + 1][..i] == q[..i];
      if !q[i].ok {
        n := n + 1;
      }
    }
    assert q[..|q|] == q;
  }

  // ---------------------------------------------------------------------------------------------
  // Runs of calls
  // ---------------------------------------------------------------------------------------------

  datatype Call =
    | Outcome(tenant: string, ok: bool, at: real)
    | Query(tenant: string, at: real)

  datatype Answer = Answer(tenant: string, rejected: bool)

  datatype Trace = Trace(state: State, answers: seq<Answer>)

  function Perform(c: Rule, tr: Trace, call: Call): Trace {
    match call
    case Outcome(t, ok, at) => tr.(state := Record(c, tr.state, t, ok, at))
    case Query(t, at) =>
      var (s, rejected) := Ask(tr.state, t, at);
      Trace(s, tr.answers + [Answer(t, rejected)])
  }

  /** The first `n` calls, made one after the other. */
  function Run(c: Rule, calls: seq<Call>, n: nat): Trace
    requires n <= |calls|
    decreases n
  {
    if n == 0 then Trace(Initial, []) else Perform(c, Run(c, calls, n - 1), calls[n - 1])
  }

  /** The clock never runs backwards. */
  ghost predicate Monotone(calls: seq<Call>) {
    forall i, j :: 0 <= i < j < |calls| ==> calls[i].at <= calls[j].at
  }

  /** The samples inside a window, wherever they stand. */
  function Window(q: seq<Sample>, cutoff: real): seq<Sample>
    decreases |q|
  {
    if q == [] then []
    else Window(q[..|q| - 1], cutoff) + if q[|q| - 1].at >= cutoff then [q[|q| - 1]] else []
  }

  /**
  What a tenant's breaker is for, told without queues: every outcome since the last opening, the
  opening not yet recovered from, and the last opening of all.
  */
  datatype Account = Account(since: seq<Sample>, open: Option<real>, last: Option<real>)

  lemma {:induction false} WindowKeepsNewest(q: seq<Sample>, x: Sample, cutoff: real)
    requires x.at >= cutoff
    ensures Window(q + [x], cutoff) != []
  {
  }

  function StepAccount(c: Rule, a: Account, call: Call): Account {
    match call
    case Query(_, at) =>
      if a.open.Some? && at >= a.open.value + c.cooldown then a.(open := None) else a
    case Outcome(_, ok, at) =>
      var since := a.since + [Sample(at, ok)];
      if a.open.None? && c.trips(Window(since, at - c.window)) then Account([], Some(at), Some(at))
      else a.(since := since)
  }

  function AccountOf(c: Rule, calls: seq<Call>, n: nat, t: string): Account
    requires n <= |calls|
    decreases n
  {
    if n == 0 then Account([], None, None)
    else
      var before := AccountOf(c, calls, n - 1, t);
      if calls[n - 1].tenant == t then StepAccount(c, before, calls[n - 1]) else before
  }

  ghost predicate Sorted(q: seq<Sample>) {
    |q| >= 2 ==> q[|q| - 2].at <= q[|q| - 1].at && Sorted(q[..|q| - 1])
  }

  /** When the tenant's last outcome arrived. */
  function LastOutcomeAt(calls: seq<Call>, n: nat, t: string): Option<real>
    requires n <= |calls|
    decreases n
  {
    if n == 0 then None
    else if calls[n - 1].Outcome? && calls[n - 1].tenant == t then Some(calls[n - 1].at)
    else LastOutcomeAt(calls, n - 1, t)
  }

  /** A sorted queue that starts inside the window lies inside it. */
  lemma {:induction false} WindowOfYoung(q: seq<Sample>, cutoff: real)
    requires Sorted(q) && (q != [] ==> q[0].at >= cutoff)
    ensures Window(q, cutoff) == q && (q != [] ==> q[|q| - 1].at >= cutoff)
    decreases |q|
  {
    if |q| >= 2 {
      WindowOfYoung(q[..|q| - 1], cutoff);
    }
  }

  lemma {:induction false} SortedTail(q: seq<Sample>)
    requires Sorted(q) && q != []
    ensures Sorted(q[1..])
    decreases |q|
  {
    if |q| >= 2 {
      SortedTail(q[..|q| - 1]);
      assert q[..|q| - 1][1..] == q[1..][..|q| - 2];
    }
  }

  lemma {:induction false} WindowDropsOldHead(q: seq<Sample>, cutoff: real)
    requires q != [] && q[0].at < cutoff
    ensures Window(q, cutoff) == Window(q[1..], cutoff)
    decreases |q|
  {
    var n := |q| - 1;
    if n > 0 {
      WindowDropsOldHead(q[..n], cutoff);
      assert q[..n][1..] == q[1..][..n - 1];
    } else {
      assert q[..n] == [] && q[1..] == [];
    }
  }

  /** On a sorted queue, popping from the left is the same as filtering. */
  lemma {:induction false} PruneIsWindow(q: seq<Sample>, cutoff: real)
    requires Sorted(q)
    ensures Prune(q, cutoff) == Window(q, cutoff)
    decreases |q|
  {
    if q != [] && q[0].at < cutoff {
      WindowDropsOldHead(q, cutoff);
      SortedTail(q);
      PruneIsWindow(q[1..], cutoff);
    } else {
      WindowOfYoung(q, cutoff);
    }
  }

  /** Filtering early by a smaller cutoff loses nothing a later filter would have kept. */
  lemma {:induction false} WindowTwice(q: seq<Sample>, x: Sample, early: real, late: real)
    requires early <= late
    ensures Window(Window(q, early) + [x], late) == Window(q + [x], late)
  {
    assert (q + [x])[..|q|] == q;
    assert (Window(q, early) + [x])[..|Window(q, early)|] == Window(q, early);
    WindowNested(q, early, late);
  }

  lemma {:induction false} WindowNested(q: seq<Sample>, early: real, late: real)
    requires early <= late
    ensures Window(Window(q, early), late) == Window(q, late)
    decreases |q|
  {
    if q != [] {
      var init, last := q[..|q| - 1], q[|q| - 1];
      WindowNested(init, early, late);
      if last.at >= early {
        assert (Window(init, early) + [last])[..|Window(init, early)|] == Window(init, early);
      } else {
        assert Window(init, early) + [] == Window(init, early);
      }
    }
  }

  lemma {:induction false} SortedAppend(q: seq<Sample>, x: Sample)
    requires Sorted(q) && (q != [] ==> q[|q| - 1].at <= x.at)
    ensures Sorted(q + [x])
  {
  }

  lemma {:induction false} WindowSorted(q: seq<Sample>, cutoff: real)
    requires Sorted(q)
    ensures Sorted(Window(q, cutoff))
    ensures q != [] && Window(q, cutoff) != [] ==> Window(q, cutoff)[|Window(q, cutoff)| - 1].at <= q[|q| - 1].at
    decreases |q|
  {
    if q != [] {
      var init, last := q[..|q| - 1], q[|q| - 1];
      WindowSorted(init, cutoff);
      SortedAppend(Window(init, cutoff), last);
      assert Window(init, cutoff) + [] == Window(init, cutoff);
    }
  }

  /** History is in order, ends with the last outcome, and is empty without one. */
  lemma {:induction false} AccountSorted(c: Rule, calls: seq<Call>, n: nat, t: string)
    requires n <= |calls| && Monotone(calls)
    ensures var since, last := AccountOf(c, calls, n, t).since, LastOutcomeAt(calls, n, t);
            && Sorted(since)
            && (since != [] ==> last.Some? && since[|since| - 1].at <= last.value)
            && (last.Some? ==> n > 0 && last.value <= calls[n - 1].at)
    decreases n
  {
    hide StepAccount, Sorted;
    NoneSorted();
    if n > 0 {
      AccountSorted(c, calls, n - 1, t);
      StepSorted(c, AccountOf(c, calls, n - 1, t), LastOutcomeAt(calls, n - 1, t), calls[n - 1]);
    }
  }

  lemma {:induction false} NoneSorted()
    ensures Sorted([])
  {
  }

  lemma {:induction false} StepSorted(c: Rule, a: Account, last: Option<real>, call: Call)
    requires Sorted(a.since)
    requires a.since != [] ==> last.Some? && a.since[|a.since| - 1].at <= last.value
    requires last.Some? ==> last.value <= call.at
    ensures var since := StepAccount(c, a, call).since;
            && Sorted(since)
            && (call.Outcome? ==> since != [] ==> since[|since| - 1].at <= call.at)
            && (!call.Outcome? ==> since == a.since)
  {
  }

  function StepCell(c: Rule, cell: Cell, call: Call): Cell {
    match call
    case Outcome(_, ok, at) => RecordCell(c, cell, ok, at)
    case Query(_, at) => AskCell(cell, at)
  }

  /** A call changes the caller's share as `StepCell` says, and no other tenant's. */
  lemma {:induction false} PerformStepsCell(c: Rule, tr: Trace, call: Call, t: string)
    ensures CellOf(Perform(c, tr, call).state, t)
            == if call.tenant == t then StepCell(c, CellOf(tr.state, t), call) else CellOf(tr.state, t)
  {
  }

  /** The queue is the window as it stood at the last outcome; the mark is the opening plus the cooldown. */
  ghost predicate Refines(c: Rule, cell: Cell, a: Account, last: Option<real>) {
    && cell.queue == (if last.Some? then Window(a.since, last.value - c.window) else a.since)
    && cell.until == if a.open.Some? then Some(a.open.value + c.cooldown) else None
  }

  /** Pruning the pruned queue once more is the window of the whole history. */
  lemma {:induction false} PruneAppended(history: seq<Sample>, x: Sample, early: real, late: real)
    requires Sorted(history) && (history != [] ==> history[|history| - 1].at <= x.at)
    requires early <= late <= x.at
    ensures Prune(Window(history, early) + [x], late) == Window(history + [x], late)
    ensures Window(history + [x], late) != []
  {
    WindowSorted(history, early);
    SortedAppend(Window(history, early), x);
    PruneIsWindow(Window(history, early) + [x], late);
    WindowKeepsNewest(history, x, late);
    WindowTwice(history, x, early, late);
  }

  lemma {:induction false} EmptyWindow(cutoff: real)
    ensures Window([], cutoff) == []
  {
  }

  lemma {:induction false} PruneStep(c: Rule, cell: Cell, a: Account, last: Option<real>, x: Sample)
    requires Refines(c, cell, a, last) && Sorted(a.since)
    requires last.Some? ==> last.value <= x.at
    requires a.since != [] ==> last.Some? && a.since[|a.since| - 1].at <= last.value
    ensures Prune(cell.queue + [x], x.at - c.window) == Window(a.since + [x], x.at - c.window)
    ensures Window(a.since + [x], x.at - c.window) != []
  {
    hide Sorted, Prune, Window;
    EmptyWindow(x.at - c.window);
    if last.Some? {
      PruneAppended(a.since, x, last.value - c.window, x.at - c.window);
    } else {
      assert a.since == [];
      PruneAppended(a.since, x, x.at - c.window, x.at - c.window);
    }
  }

  lemma {:induction false} RecordRefines(c: Rule, cell: Cell, a: Account, call: Call, last: Option<real>)
    requires call.Outcome? && Refines(c, cell, a, last)
    requires Prune(cell.queue + [Sample(call.at, call.ok)], call.at - c.window)
             == Window(a.since + [Sample(call.at, call.ok)], call.at - c.window)
    ensures Refines(c, RecordCell(c, cell, call.ok, call.at), StepAccount(c, a, call), Some(call.at))
  {
    hide Window, Prune;
    EmptyWindow(call.at - c.window);
  }

  lemma {:induction false} NothingRefinesNothing(c: Rule)
    ensures Refines(c, Cell([], None), Account([], None, None), None)
  {
  }

  lemma {:induction false} CallRefines(c: Rule, cell: Cell, a: Account, last: Option<real>, call: Call)
    requires Refines(c, cell, a, last) && Sorted(a.since)
    requires last.Some? ==> last.value <= call.at
    requires a.since != [] ==> last.Some? && a.since[|a.since| - 1].at <= last.value
    ensures Refines(c, StepCell(c, cell, call), StepAccount(c, a, call), if call.Outcome? then Some(call.at) else last)
  {
    if call.Outcome? {
      PruneStep(c, cell, a, last, Sample(call.at, call.ok));
      RecordRefines(c, cell, a, call, last);
    }
  }

  /**
  The refinement: after any run the queue holds exactly the outcomes since the last opening that were
  inside the window when the last outcome arrived, and the breaker is marked open exactly when the
  account is, until the opening plus the cooldown.
  */
  lemma {:induction false} BreakerRefinesAccount(c: Rule, calls: seq<Call>, n: nat, t: string)
    requires n <= |calls| && Monotone(calls)
    ensures Refines(c, CellOf(Run(c, calls, n).state, t), AccountOf(c, calls, n, t), LastOutcomeAt(calls, n, t))
    decreases n
  {
    hide Perform, StepCell, StepAccount, Window, Refines;
    NothingRefinesNothing(c);
    if n > 0 {
      BreakerRefinesAccount(c, calls, n - 1, t);
      PerformStepsCell(c, Run(c, calls, n - 1), calls[n - 1], t);
      if calls[n - 1].tenant == t {
        AccountSorted(c, calls, n - 1, t);
        CallRefines(c, CellOf(Run(c, calls, n - 1).state, t), AccountOf(c, calls, n - 1, t),
                    LastOutcomeAt(calls, n - 1, t), calls[n - 1]);
      }
    }
  }

  /**
  What each outcome of a run does: the breaker opens exactly when it is not marked open and the window
  of the whole history since the last opening trips the rule; otherwise the queue is that window.
  */
  lemma {:induction false} WindowRefinement(c: Rule, calls: seq<Call>, n: nat, t: string)
    requires n < |calls| && Monotone(calls) && calls[n].Outcome? && calls[n].tenant == t
    ensures var cell, cell' := CellOf(Run(c, calls, n).state, t), CellOf(Run(c, calls, n + 1).state, t);
            var now := calls[n].at;
            var window := Window(AccountOf(c, calls, n, t).since + [Sample(now, calls[n].ok)], now - c.window);
            && window != []
            && cell' == if cell.until.None? && c.trips(window) then Cell([], Some(now + c.cooldown))
                        else Cell(window, cell.until)
  {
    hide Perform, StepAccount, Window;
    BreakerRefinesAccount(c, calls, n, t);
    AccountSorted(c, calls, n, t);
    PruneStep(c, CellOf(Run(c, calls, n).state, t), AccountOf(c, calls, n, t), LastOutcomeAt(calls, n, t),
              Sample(calls[n].at, calls[n].ok));
    PerformStepsCell(c, Run(c, calls, n), calls[n], t);
  }

  lemma {:induction false} RecoveredAfterCooldown(c: Rule, calls: seq<Call>, n: nat, t: string)
    requires n <= |calls| && Monotone(calls)
    ensures var a := AccountOf(c, calls, n, t);
            && (a.open.Some? ==> a.open == a.last)
            && (a.open.None? && a.last.Some? ==> n > 0 && calls[n - 1].at >= a.last.value + c.cooldown)
    decreases n
  {
    if n > 0 {
      RecoveredAfterCooldown(c, calls, n - 1, t);
    }
  }

  /** Lazy deletion never shows: the answer is "less than a cooldown since the last opening". */
  lemma {:induction false} AnswerIsCooldown(c: Rule, calls: seq<Call>, n: nat, t: string)
    requires n < |calls| && Monotone(calls) && calls[n] == Query(t, calls[n].at)
    ensures var last := AccountOf(c, calls, n, t).last;
            var rejected := last.Some? && calls[n].at < last.value + c.cooldown;
            Run(c, calls, n + 1).answers == Run(c, calls, n).answers + [Answer(t, rejected)]
  {
    BreakerRefinesAccount(c, calls, n, t);
    RecoveredAfterCooldown(c, calls, n, t);
  }

  function NoticesFor(notices: seq<Notice>, t: string): seq<bool> {
    if notices == [] then []
    else
      var n := notices[|notices| - 1];
      NoticesFor(notices[..|notices| - 1], t) + if n.tenant == t then [n.isOpen] else []
  }

  /** Opened, closed, opened, closed, ... */
  ghost predicate Alternates(s: seq<bool>) {
    forall i :: 0 <= i < |s| ==> s[i] == (i % 2 == 0)
  }

  lemma {:induction false} AlternatesAppend(q: seq<bool>)
    requires Alternates(q)
    ensures Alternates(q + [|q| % 2 == 0])
    ensures Alternates(q + [])
  {
  }

  lemma {:induction false} PerformNotifies(c: Rule, tr: Trace, call: Call, t: string)
    ensures var s, s' := tr.state, Perform(c, tr, call).state;
            NoticesFor(s'.notices, t) == NoticesFor(s.notices, t)
              + if t in s.openUntil <==> t in s'.openUntil then [] else [t in s'.openUntil]
  {
  }

  /** Opened and closed notifications of a tenant strictly alternate, and the last tells the state. */
  lemma {:induction false} NoticesAlternate(c: Rule, calls: seq<Call>, n: nat, t: string)
    requires n <= |calls|
    ensures var s := Run(c, calls, n).state;
            && Alternates(NoticesFor(s.notices, t))
            && (t in s.openUntil <==> |NoticesFor(s.notices, t)| % 2 == 1)
    decreases n
  {
    hide Perform;
    if n > 0 {
      NoticesAlternate(c, calls, n - 1, t);
      var tr := Run(c, calls, n - 1);
      PerformNotifies(c, tr, calls[n - 1], t);
      AlternatesAppend(NoticesFor(tr.state.notices, t));
    }
  }

  function CallsOf(calls: seq<Call>, n: nat, t: string): seq<Call>
    requires n <= |calls|
    decreases n
  {
    if n == 0 then []
    else CallsOf(calls, n - 1, t) + if calls[n - 1].tenant == t then [calls[n - 1]] else []
  }

  lemma {:induction false} RunIgnoresLaterCalls(c: Rule, calls: seq<Call>, later: seq<Call>, n: nat)
    requires n <= |calls|
    ensures Run(c, calls + later, n) == Run(c, calls, n)
    decreases n
  {
    hide Perform;
    if n > 0 {
      RunIgnoresLaterCalls(c, calls, later, n - 1);
      assert (calls + later)[n - 1] == calls[n - 1];
    }
  }

  function AnswersFor(answers: seq<Answer>, t: string): seq<bool> {
    if answers == [] then []
    else
      var a := answers[|answers| - 1];
      AnswersFor(answers[..|answers| - 1], t) + if a.tenant == t then [a.rejected] else []
  }

  lemma {:induction false} PerformAnswers(c: Rule, tr: Trace, call: Call, t: string)
    ensures var tr' := Perform(c, tr, call);
            && |tr'.answers| == |tr.answers| + (if call.Query? then 1 else 0)
            && AnswersFor(tr'.answers, t) == AnswersFor(tr.answers, t)
                 + if call.Query? && call.tenant == t then [AskCell(CellOf(tr.state, t), call.at).until.Some?] else []
  {
  }

  /** A tenant sees the same breaker whatever the other tenants do. */
  lemma {:induction false} TenantsIsolated(c: Rule, calls: seq<Call>, n: nat, t: string)
    requires n <= |calls|
    ensures var all, own := Run(c, calls, n), Run(c, CallsOf(calls, n, t), |CallsOf(calls, n, t)|);
            && AnswersFor(all.answers, t) == AnswersFor(own.answers, t)
            && |own.answers| == |AnswersFor(own.answers, t)|
            && CellOf(all.state, t) == CellOf(own.state, t)
    decreases n
  {
    hide Perform, StepCell;
    if n > 0 {
      TenantsIsolated(c, calls, n - 1, t);
      var call, mine := calls[n - 1], CallsOf(calls, n - 1, t);
      var all, own := Run(c, calls, n - 1), Run(c, mine, |mine|);
      PerformStepsCell(c, all, call, t);
      PerformAnswers(c, all, call, t);
      if call.tenant == t {
        RunIgnoresLaterCalls(c, mine, [call], |mine|);
        PerformStepsCell(c, own, call, t);
        PerformAnswers(c, own, call, t);
      } else {
        assert mine + [] == mine;
      }
    }
  }

  lemma {:induction false} NoFailureNoRatio(q: seq<Sample>)
    requires forall i :: 0 <= i < |q| ==> q[i].ok
    ensures Failures(q) == 0
    decreases |q|
  {
    if q != [] {
      NoFailureNoRatio(q[..|q| - 1]);
    }
  }

  /** A closed breaker whose queue holds successes only. */
  ghost predicate Healthy(cell: Cell) {
    cell.until.None? && forall i :: 0 <= i < |cell.queue| ==> cell.queue[i].ok
  }

  lemma {:induction false} PruneKeepsHealth(q: seq<Sample>, cutoff: real)
    requires forall i :: 0 <= i < |q| ==> q[i].ok
    ensures forall i :: 0 <= i < |Prune(q, cutoff)| ==> Prune(q, cutoff)[i].ok
    decreases |q|
  {
    if q != [] && q[0].at < cutoff {
      PruneKeepsHealth(q[1..], cutoff);
    }
  }

  lemma {:induction false} HealthyStep(failureRatio: real, minSamples: int, window: Span, cooldown: real,
                                       cell: Cell, call: Call)
    requires failureRatio >= 0.0 && Healthy(cell) && (call.Outcome? ==> call.ok)
    ensures Healthy(StepCell(RatioRule(failureRatio, minSamples, window, cooldown), cell, call))
    ensures call.Query? ==> AskCell(cell, call.at).until.None?
  {
    hide Prune;
    if call.Outcome? {
      var q := cell.queue + [Sample(call.at, call.ok)];
      PruneKeepsHealth(q, call.at - window);
      NoFailureNoRatio(Prune(q, call.at - window));
    }
  }

  /** A tenant without failures is never rejected, for any sensible ratio and whatever its neighbours do. */
  lemma {:induction false} HealthyTenantNeverOpens(failureRatio: real, minSamples: int, window: Span, cooldown: real,
                                                   calls: seq<Call>, n: nat, t: string)
    requires failureRatio >= 0.0 && n <= |calls|
    requires forall i :: 0 <= i < n && calls[i].Outcome? && calls[i].tenant == t ==> calls[i].ok
    ensures var tr := Run(RatioRule(failureRatio, minSamples, window, cooldown), calls, n);
            && t !in tr.state.openUntil
            && Healthy(CellOf(tr.state, t))
            && forall answer :: answer in AnswersFor(tr.answers, t) ==> !answer
    decreases n
  {
    hide Perform, StepCell, AskCell, RatioRule;
    if n > 0 {
      HealthyTenantNeverOpens(failureRatio, minSamples, window, cooldown, calls, n - 1, t);
      var c, call := RatioRule(failureRatio, minSamples, window, cooldown), calls[n - 1];
      var tr := Run(c, calls, n - 1);
      PerformStepsCell(c, tr, call, t);
      PerformAnswers(c, tr, call, t);
      if call.tenant == t {
        HealthyStep(failureRatio, minSamples, window, cooldown, CellOf(tr.state, t), call);
      }
    }
  }
}
