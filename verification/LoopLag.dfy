/**
The load a worker reports to LiveKit (src/openrtc/runtime/coroutine_runtime.py, lines 581 to 596 and
809 to 817), over exact reals: session pressure, or a smoothed event-loop lag.
*/
module LoopLag {

  const LOOP_LAG_FULL_MS := 60.0
  const LOOP_LAG_SMOOTHING := 0.2

  function Max(a: real, b: real): real {
    if a >= b then a else b
  }

  function Min(a: real, b: real): real {
    if a <= b then a else b
  }

  /** One sample folded into the smoothed lag. */
  function Smooth(lag: real, sample: real): real {
    lag + LOOP_LAG_SMOOTHING * (sample - lag)
  }

  function Load(active: nat, maxSessions: nat, lag: real): real
    requires maxSessions > 0
  {
    Max(active as real / maxSessions as real, Min(1.0, lag / LOOP_LAG_FULL_MS))
  }

  /** The part of the pool that measures its event loop. */
  class LoadGauge {
    var loopLagMs: real
    const maxConcurrentSessions: nat

    constructor (maxConcurrentSessions: nat)
      requires maxConcurrentSessions > 0
      ensures loopLagMs == 0.0 && this.maxConcurrentSessions == maxConcurrentSessions
    {
      loopLagMs := 0.0;
      this.maxConcurrentSessions := maxConcurrentSessions;
    }

    method RecordLoopLag(lagMs: real)
      modifies this
      ensures loopLagMs == Smooth(old(loopLagMs), lagMs)
    {
      loopLagMs := loopLagMs + LOOP_LAG_SMOOTHING * (lagMs - loopLagMs);
    }

    /** Full exactly when every slot is taken or the smoothed lag has reached 60 ms. */
    method CurrentLoad(executors: nat) returns (load: real)
      requires maxConcurrentSessions > 0
      ensures load == Load(executors, maxConcurrentSessions, loopLagMs)
      ensures load >= 1.0 <==> executors >= maxConcurrentSessions || loopLagMs >= LOOP_LAG_FULL_MS
      ensures forall level: real :: load >= level <==> Reaches(executors, maxConcurrentSessions, loopLagMs, level)
    {
      LoadReaches(executors, maxConcurrentSessions, loopLagMs);
      FullExactlyWhen(executors, maxConcurrentSessions, loopLagMs);
      var sessions := executors as real / maxConcurrentSessions as real;
      load := Max(sessions, Min(1.0, loopLagMs / LOOP_LAG_FULL_MS));
    }
  }

  /** The sessions alone make up this much of the pool, or the lag this much of 60 ms, which counts up to full. */
  predicate Reaches(active: nat, maxSessions: nat, lag: real, level: real) {
    active as real >= level * maxSessions as real || (level <= 1.0 && lag >= level * 60.0)
  }

  /** What the load is at every level, not only where it is full. */
  lemma {:induction false} LoadReaches(active: nat, maxSessions: nat, lag: real)
    requires maxSessions > 0
    ensures forall level: real :: Load(active, maxSessions, lag) >= level <==> Reaches(active, maxSessions, lag, level)
  {
    forall level: real
      ensures Load(active, maxSessions, lag) >= level <==> Reaches(active, maxSessions, lag, level)
    {
      QuotientAtLeast(active as real, maxSessions as real, level);
    }
  }

  lemma {:induction false} QuotientAtLeast(x: real, y: real, level: real)
    requires y > 0.0
    ensures x / y >= level <==> x >= level * y
  {
    assert x == (x / y) * y;
    if x / y >= level {
      assert (x / y - level) * y >= 0.0;
    } else {
      assert (level - x / y) * y > 0.0;
    }
  }

  lemma FullExactlyWhen(active: nat, maxSessions: nat, lag: real)
    requires maxSessions > 0
    ensures Load(active, maxSessions, lag) >= 1.0 <==> active >= maxSessions || lag >= LOOP_LAG_FULL_MS
  {
    QuotientAtLeastOne(active as real, maxSessions as real);
  }

  lemma QuotientAtLeastOne(x: real, y: real)
    requires y > 0.0
    ensures x / y >= 1.0 <==> x >= y
  {
  }

  /** The smoothed lag after the first `n` samples. */
  function LagAfter(samples: seq<real>, n: nat): real
    requires n <= |samples|
    decreases n
  {
    if n == 0 then 0.0 else Smooth(LagAfter(samples, n - 1), samples[n - 1])
  }

  /** The smoothed lag never leaves the range of the samples. */
  lemma {:induction false} LagStaysBetween(samples: seq<real>, n: nat, most: real)
    requires n <= |samples| && most >= 0.0
    requires forall i :: 0 <= i < n ==> 0.0 <= samples[i] <= most
    ensures 0.0 <= LagAfter(samples, n) <= most
    decreases n
  {
    if n > 0 {
      LagStaysBetween(samples, n - 1, most);
    }
  }

  function Power(x: real, n: nat): real
    decreases n
  {
    if n == 0 then 1.0 else x * Power(x, n - 1)
  }

  /** After `n` samples of at least `least`, the lag has covered all but 0.8 to the `n` of the way. */
  lemma {:induction false} LagCatchesUp(samples: seq<real>, n: nat, least: real)
    requires n <= |samples| && least >= 0.0
    requires forall i :: 0 <= i < n ==> samples[i] >= least
    ensures LagAfter(samples, n) >= least * (1.0 - Power(0.8, n))
    decreases n
  {
    if n > 0 {
      LagCatchesUp(samples, n - 1, least);
      var before, p := LagAfter(samples, n - 1), Power(0.8, n - 1);
      assert LagAfter(samples, n) >= 0.8 * before + 0.2 * least;
      assert 0.8 * (least * (1.0 - p)) + 0.2 * least == least * (1.0 - 0.8 * p);
    }
  }

  /** Powers of 0.8 fall at least as fast as 4 / (4 + n). */
  lemma {:induction false} PowerFalls(n: nat)
    ensures 0.0 <= Power(0.8, n) && Power(0.8, n) * (4.0 + n as real) <= 4.0
    decreases n
  {
    if n > 0 {
      PowerFalls(n - 1);
      var p, k := Power(0.8, n - 1), n as real;
      assert p * (3.0 + k) <= 4.0;
      assert p * k >= 0.0 && p >= 0.0 by { ProductNonNegative(p, k); }
      assert 0.8 * p * (4.0 + k) == 0.8 * (p * (3.0 + k)) + 0.8 * p;
      assert 0.8 * p <= 0.2 * (p * (3.0 + k)) by {
        assert p * (3.0 + k) == 3.0 * p + p * k;
        assert p * k >= p by { ProductNonNegative(p, k - 1.0); assert p * (k - 1.0) == p * k - p; }
      }
    }
  }

  lemma ProductNonNegative(x: real, y: real)
    requires x >= 0.0 && y >= 0.0
    ensures x * y >= 0.0
  {
  }

  /** Under any `n` samples of at least `least` the worker reports itself full, however few sessions it has. */
  ghost predicate SaturationShows(least: real, n: nat, maxSessions: nat)
    requires maxSessions > 0
  {
    forall samples: seq<real>, active: nat ::
      |samples| == n && (forall i :: 0 <= i < n ==> samples[i] >= least) ==>
        Load(active, maxSessions, LagAfter(samples, n)) >= 1.0
  }

  /** What samples that are all the same leave of the lag. */
  lemma {:induction false} ConstantLag(samples: seq<real>, n: nat, level: real)
    requires n <= |samples| && forall i :: 0 <= i < n ==> samples[i] == level
    ensures LagAfter(samples, n) == level * (1.0 - Power(0.8, n))
    decreases n
  {
    if n > 0 {
      ConstantLag(samples, n - 1, level);
      var p := Power(0.8, n - 1);
      assert 0.8 * (level * (1.0 - p)) + 0.2 * level == level * (1.0 - 0.8 * p);
    }
  }

  lemma RemainderExactly(p: real, least: real)
    requires least > 60.0
    ensures least * (1.0 - p) >= 60.0 <==> p <= 1.0 - 60.0 / least
  {
  }

  /**
  How many samples of a lag above 60 ms it takes for the worker to report itself full, exactly: as many as
  bring 0.8 to the `n` down to one minus 60 over the lag.
  */
  lemma SaturationShowsExactly(least: real, n: nat, maxSessions: nat)
    requires maxSessions > 0 && least > LOOP_LAG_FULL_MS
    ensures SaturationShows(least, n, maxSessions) <==> Power(0.8, n) <= 1.0 - 60.0 / least
  {
    hide Load, LagAfter, Power;
    RemainderExactly(Power(0.8, n), least);
    if Power(0.8, n) <= 1.0 - 60.0 / least {
      forall samples: seq<real>, active: nat | |samples| == n && forall i :: 0 <= i < n ==> samples[i] >= least
        ensures Load(active, maxSessions, LagAfter(samples, n)) >= 1.0
      {
        LagCatchesUp(samples, n, least);
        FullExactlyWhen(active, maxSessions, LagAfter(samples, n));
      }
    } else {
      var samples := seq(n, i => least);
      ConstantLag(samples, n, least);
      FullExactlyWhen(0, maxSessions, LagAfter(samples, n));
    }
  }

  /** So many samples are always enough: 240 / (L - 60) of them, for a lag of L. */
  lemma SaturationShowsSoon(least: real, n: nat, maxSessions: nat)
    requires maxSessions > 0 && least > LOOP_LAG_FULL_MS
    requires n as real * (least - 60.0) >= 240.0
    ensures SaturationShows(least, n, maxSessions)
  {
    hide Load, LagAfter, Power, SaturationShows;
    PowerFalls(n);
    RemainderSmall(Power(0.8, n), n as real, least);
    RemainderExactly(Power(0.8, n), least);
    SaturationShowsExactly(least, n, maxSessions);
  }

  lemma RemainderSmall(p: real, n: real, least: real)
    requires p >= 0.0 && n >= 0.0 && p * (4.0 + n) <= 4.0 && least > 60.0 && n * (least - 60.0) >= 240.0
    ensures least * (1.0 - p) >= 60.0
  {
  }
}
