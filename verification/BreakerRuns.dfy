/**
The tenant breaker told by the calls alone (src/openrtc/core/circuit_breaker.py, lines 53 to 93): which outcomes of
a run open it and which questions it rejects, by the numbers of outcomes and of failures among them.
*/
module BreakerRuns {
  import opened Wrappers
  import opened CircuitBreaker

  /** On a queue in time order, pruning leaves a tail: everything before it is too old, nothing in it is. */
  lemma {:induction false} PruneLeavesTail(q: seq<Sample>, cutoff: real) returns (k: nat)
    requires forall i, j :: 0 <= i < j < |q| ==> q[i].at <= q[j].at
    ensures k <= |q| && Prune(q, cutoff) == q[k..]
    ensures (forall i :: 0 <= i < k ==> q[i].at < cutoff) && forall i :: k <= i < |q| ==> q[i].at >= cutoff
    decreases |q|
  {
    k := 0;
    if q != [] && q[0].at < cutoff {
      var rest := PruneLeavesTail(q[1..], cutoff);
      k := rest + 1;
      assert forall i :: 0 <= i < |q| - 1 ==> q[1..][i] == q[i + 1];
      assert forall i :: 1 <= i < |q| ==> q[i] == q[1..][i - 1];
    }
  }

  // ---------------------------------------------------------------------------------------------
  // Openings
  // ---------------------------------------------------------------------------------------------

  /** This call opens the tenant's breaker. */
  ghost predicate OpensAt(c: Rule, calls: seq<Call>, m: nat, t: string) {
    m < |calls| && t !in Run(c, calls, m).state.openUntil && t in Run(c, calls, m + 1).state.openUntil
  }

  /** The tenant's breaker last opened right before call `k`, or not at all if that is the first. */
  ghost predicate OpenedLastBefore(c: Rule, calls: seq<Call>, k: nat, n: nat, t: string) {
    k <= n && (k > 0 ==> OpensAt(c, calls, k - 1, t)) && forall m :: k <= m < n ==> !OpensAt(c, calls, m, t)
  }

  /** The calls from `k` to `n` that report an outcome of the tenant no older than the cutoff. */
  ghost function Reported(calls: seq<Call>, k: nat, n: nat, t: string, cutoff: real): set<nat>
    requires n <= |calls|
  {
    set i: nat | k <= i < n && calls[i].Outcome? && calls[i].tenant == t && calls[i].at >= cutoff
  }

  /** Those of them that report a failure. */
  ghost function Failed(calls: seq<Call>, k: nat, n: nat, t: string, cutoff: real): set<nat>
    requires n <= |calls|
  {
    set i: nat | k <= i < n && calls[i].Outcome? && calls[i].tenant == t && calls[i].at >= cutoff && !calls[i].ok
  }

  function Samples(calls: seq<Call>, k: nat, n: nat, t: string): seq<Sample>
    requires n <= |calls|
    decreases n
  {
    if n <= k then []
    else Samples(calls, k, n - 1, t)
         + if calls[n - 1].Outcome? && calls[n - 1].tenant == t then [Sample(calls[n - 1].at, calls[n - 1].ok)] else []
  }

  /** A call counts if it reports an outcome of the tenant inside the window. */
  predicate Counts(call: Call, t: string, cutoff: real) {
    call.Outcome? && call.tenant == t && call.at >= cutoff
  }

  lemma {:induction false} OneMoreReported(calls: seq<Call>, k: nat, n: nat, t: string, cutoff: real)
    requires k <= n < |calls|
    ensures |Reported(calls, k, n + 1, t, cutoff)|
            == |Reported(calls, k, n, t, cutoff)| + if Counts(calls[n], t, cutoff) then 1 else 0
  {
    assert Reported(calls, k, n + 1, t, cutoff)
           == Reported(calls, k, n, t, cutoff) + if Counts(calls[n], t, cutoff) then {n} else {};
  }

  lemma {:induction false} OneMoreFailed(calls: seq<Call>, k: nat, n: nat, t: string, cutoff: real)
    requires k <= n < |calls|
    ensures |Failed(calls, k, n + 1, t, cutoff)|
            == |Failed(calls, k, n, t, cutoff)| + if Counts(calls[n], t, cutoff) && !calls[n].ok then 1 else 0
  {
    assert Failed(calls, k, n + 1, t, cutoff)
           == Failed(calls, k, n, t, cutoff) + if Counts(calls[n], t, cutoff) && !calls[n].ok then {n} else {};
  }

  lemma {:induction false} NoneReported(calls: seq<Call>, k: nat, t: string, cutoff: real)
    requires k <= |calls|
    ensures Reported(calls, k, k, t, cutoff) == {} && Failed(calls, k, k, t, cutoff) == {}
  {
  }

  lemma {:induction false} SamplesInWindow(calls: seq<Call>, k: nat, n: nat, t: string, cutoff: real)
    requires k <= n <= |calls|
    ensures var window := Window(Samples(calls, k, n, t), cutoff);
            && |window| == |Reported(calls, k, n, t, cutoff)|
            && Failures(window) == |Failed(calls, k, n, t, cutoff)|
    decreases n
  {
    hide Reported, Failed, Window, Failures;
    if n == k {
      NoneReported(calls, k, t, cutoff);
      NothingInWindow(cutoff);
    } else {
      SamplesInWindow(calls, k, n - 1, t, cutoff);
      OneMoreReported(calls, k, n - 1, t, cutoff);
      OneMoreFailed(calls, k, n - 1, t, cutoff);
      var q, call := Samples(calls, k, n - 1, t), calls[n - 1];
      if call.Outcome? && call.tenant == t {
        OneMoreInWindow(q, Sample(call.at, call.ok), cutoff);
      } else {
        assert q + [] == q;
      }
    }
  }

  lemma {:induction false} NothingInWindow(cutoff: real)
    ensures Window([], cutoff) == [] && Failures([]) == 0
  {
  }

  lemma {:induction false} OneMoreInWindow(q: seq<Sample>, x: Sample, cutoff: real)
    ensures |Window(q + [x], cutoff)| == |Window(q, cutoff)| + (if x.at >= cutoff then 1 else 0)
    ensures Failures(Window(q + [x], cutoff)) == Failures(Window(q, cutoff)) + if x.at >= cutoff && !x.ok then 1 else 0
  {
    assert (q + [x])[..|q|] == q;
    var w := Window(q, cutoff);
    assert (w + [x])[..|w|] == w;
    assert w + [] == w;
  }

  /** Opening is what an outcome of the tenant does to a closed account whose window trips the rule. */
  lemma {:induction false} OpensAsAccount(c: Rule, calls: seq<Call>, n: nat, t: string)
    requires n < |calls| && Monotone(calls)
    ensures var a, call := AccountOf(c, calls, n, t), calls[n];
            OpensAt(c, calls, n, t)
            <==> call.Outcome? && call.tenant == t && t !in Run(c, calls, n).state.openUntil
                 && c.trips(Window(a.since + [Sample(call.at, call.ok)], call.at - c.window))
    ensures OpensAt(c, calls, n, t) ==> Run(c, calls, n + 1).state.openUntil[t] == calls[n].at + c.cooldown
  {
    hide Window, Run;
    RunStep(c, calls, n);
    PerformStepsCell(c, Run(c, calls, n), calls[n], t);
    if calls[n].Outcome? && calls[n].tenant == t {
      WindowRefinement(c, calls, n, t);
    }
  }

  lemma {:induction false} RunStep(c: Rule, calls: seq<Call>, n: nat)
    requires n < |calls|
    ensures Run(c, calls, n + 1) == Perform(c, Run(c, calls, n), calls[n])
  {
  }

  /** The account's outcomes are those since the last opening. */
  lemma {:induction false} SinceIsSamples(c: Rule, calls: seq<Call>, k: nat, n: nat, t: string)
    requires n <= |calls| && Monotone(calls) && OpenedLastBefore(c, calls, k, n, t)
    ensures AccountOf(c, calls, n, t).since == Samples(calls, k, n, t)
    decreases n
  {
    hide Window, Run, OpensAt;
    if n > 0 {
      OpensAsAccount(c, calls, n - 1, t);
      OpenMarks(c, calls, n - 1, t);
      if k < n {
        SinceIsSamples(c, calls, k, n - 1, t);
      }
    }
  }

  lemma {:induction false} OpenMarks(c: Rule, calls: seq<Call>, n: nat, t: string)
    requires n <= |calls| && Monotone(calls)
    ensures AccountOf(c, calls, n, t).open.Some? <==> t in Run(c, calls, n).state.openUntil
  {
    BreakerRefinesAccount(c, calls, n, t);
  }

  /**
  What opens the breaker, for the rule it has: an outcome of the tenant that finds it closed, if among the tenant's
  outcomes since it last opened, this one included, those inside the window are enough and too many of them failed.
  It then stays open until a cooldown later.
  */
  lemma {:induction false} OpensExactly(failureRatio: real, minSamples: int, window: Span, cooldown: real,
                                        calls: seq<Call>, k: nat, n: nat, t: string)
    requires n < |calls| && Monotone(calls)
    requires OpenedLastBefore(RatioRule(failureRatio, minSamples, window, cooldown), calls, k, n, t)
    ensures var c := RatioRule(failureRatio, minSamples, window, cooldown);
            var since := calls[n].at - window;
            var all, bad := |Reported(calls, k, n + 1, t, since)|, |Failed(calls, k, n + 1, t, since)|;
            && (OpensAt(c, calls, n, t)
                <==> && calls[n].Outcome? && calls[n].tenant == t && t !in Run(c, calls, n).state.openUntil
                     && all >= minSamples && bad as real > failureRatio * all as real)
            && (OpensAt(c, calls, n, t) ==> Run(c, calls, n + 1).state.openUntil[t] == calls[n].at + cooldown)
  {
    hide Window, Run, OpensAt, Samples, Failures, Reported, Failed, OpenedLastBefore, AccountOf;
    var c := RatioRule(failureRatio, minSamples, window, cooldown);
    OpensAsAccount(c, calls, n, t);
    if calls[n].Outcome? && calls[n].tenant == t {
      SinceIsSamples(c, calls, k, n, t);
      var since := calls[n].at - window;
      OneMoreSample(c, calls, k, n, t);
      SamplesInWindow(calls, k, n + 1, t, since);
      SelfReported(c, calls, k, n, t, since);
      ShareAbove(|Failed(calls, k, n + 1, t, since)|, |Reported(calls, k, n + 1, t, since)|, failureRatio);
    }
  }

  lemma {:induction false} OneMoreSample(c: Rule, calls: seq<Call>, k: nat, n: nat, t: string)
    requires n < |calls| && OpenedLastBefore(c, calls, k, n, t) && calls[n].Outcome? && calls[n].tenant == t
    ensures k <= n && Samples(calls, k, n + 1, t) == Samples(calls, k, n, t) + [Sample(calls[n].at, calls[n].ok)]
  {
  }

  lemma {:induction false} SelfReported(c: Rule, calls: seq<Call>, k: nat, n: nat, t: string, since: real)
    requires n < |calls| && OpenedLastBefore(c, calls, k, n, t) && calls[n].Outcome? && calls[n].tenant == t
    requires since <= calls[n].at
    ensures |Reported(calls, k, n + 1, t, since)| > 0
  {
    assert n in Reported(calls, k, n + 1, t, since);
  }

  // ---------------------------------------------------------------------------------------------
  // Rejections
  // ---------------------------------------------------------------------------------------------

  lemma {:induction false} LastIsLatest(c: Rule, calls: seq<Call>, n: nat, t: string)
    requires n <= |calls| && Monotone(calls)
    ensures var last := AccountOf(c, calls, n, t).last;
            && (last.Some? ==> exists m :: 0 <= m < n && OpensAt(c, calls, m, t) && calls[m].at == last.value)
            && (forall m :: 0 <= m < n && OpensAt(c, calls, m, t) ==> last.Some? && calls[m].at <= last.value)
    decreases n
  {
    hide Window, Run, OpensAt;
    if n > 0 {
      LastIsLatest(c, calls, n - 1, t);
      OpensAsAccount(c, calls, n - 1, t);
      OpenMarks(c, calls, n - 1, t);
      assert OpensAt(c, calls, n - 1, t) ==> AccountOf(c, calls, n, t).last == Some(calls[n - 1].at);
    }
  }

  /** A tenant is rejected exactly if less than a cooldown has passed since one of its outcomes opened its breaker. */
  lemma {:induction false} RejectsExactly(c: Rule, calls: seq<Call>, n: nat, t: string)
    requires n < |calls| && Monotone(calls) && calls[n] == Query(t, calls[n].at)
    ensures var rejected := exists m :: 0 <= m < n && OpensAt(c, calls, m, t) && calls[n].at < calls[m].at + c.cooldown;
            Run(c, calls, n + 1).answers == Run(c, calls, n).answers + [Answer(t, rejected)]
  {
    hide Run, OpensAt, AccountOf;
    AnswerIsCooldown(c, calls, n, t);
    LastIsLatest(c, calls, n, t);
  }
}
