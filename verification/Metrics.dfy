/**
The worker's runtime counters and its bounded stream buffer (src/openrtc/observability/metrics.py).
*/
module Metrics {
  import opened Wrappers

  /** One row of the JSONL stream. */
  datatype Row =
    | SessionStarted(agent: string, tenant: string)
    | SessionFinished(agent: string, tenant: string)
    | SessionFailed(agent: string, tenant: string, error: string)
    | StreamOverflow(dropped: nat)

  const STREAM_EVENTS_MAXLEN := 256
  const ERROR_MAXLEN := 500

  /** Events kept since the last drain, and how many more were dropped. */
  datatype Buffer = Buffer(events: seq<Row>, overflow: int)

  datatype Counters = Counters(
    started: int,
    failures: int,
    lastAgent: Option<string>,
    lastError: Option<string>,
    byAgent: map<string, int>,
    byTenant: map<string, int>)

  datatype State = State(counters: Counters, buffer: Buffer)

  const Initial := State(Counters(0, 0, None, None, map[], map[]), Buffer([], 0))

  /** The gauge of a key; an absent key stands for zero. */
  function Gauge(counts: map<string, int>, key: string): int {
    if key in counts then counts[key] else 0
  }

  function Increment(counts: map<string, int>, key: string): map<string, int> {
    counts[key := Gauge(counts, key) + 1]
  }

  function Decrement(counts: map<string, int>, key: string): map<string, int> {
    if Gauge(counts, key) - 1 > 0 then counts[key := Gauge(counts, key) - 1] else counts - {key}
  }

  function Append(b: Buffer, row: Row): Buffer {
    if |b.events| >= STREAM_EVENTS_MAXLEN then b.(overflow := b.overflow + 1) else b.(events := b.events + [row])
  }

  function Truncate(error: string): string {
    if |error| <= ERROR_MAXLEN then error else error[..ERROR_MAXLEN]
  }

  /** What a session tells the store about itself. */
  datatype Report =
    | Started(agent: string, tenant: string)
    | Failed(agent: string, tenant: string, error: string)
    | Finished(agent: string, tenant: string)

  function Count(c: Counters, r: Report): Counters {
    match r
    case Started(agent, tenant) =>
      c.(started := c.started + 1, lastAgent := Some(agent),
         byAgent := Increment(c.byAgent, agent), byTenant := Increment(c.byTenant, tenant))
    case Failed(agent, _, error) =>
      c.(failures := c.failures + 1, lastAgent := Some(agent), lastError := Some(error))
    case Finished(agent, tenant) =>
      c.(byAgent := Decrement(c.byAgent, agent), byTenant := Decrement(c.byTenant, tenant))
  }

  function RowOf(r: Report): Row {
    match r
    case Started(agent, tenant) => SessionStarted(agent, tenant)
    case Failed(agent, tenant, error) => SessionFailed(agent, tenant, Truncate(error))
    case Finished(agent, tenant) => SessionFinished(agent, tenant)
  }

  function Record(s: State, r: Report): State {
    State(Count(s.counters, r), Append(s.buffer, RowOf(r)))
  }

  function Delivered(b: Buffer): seq<Row> {
    b.events + if b.overflow > 0 then [StreamOverflow(b.overflow)] else []
  }

  /** The picklable form; the last three entries may be missing from an older worker's pickle. */
  datatype Pickled = Pickled(
    started: int,
    failures: int,
    lastAgent: Option<string>,
    lastError: Option<string>,
    byAgent: map<string, int>,
    byTenant: Option<map<string, int>>,
    streamEvents: Option<seq<Row>>,
    overflow: Option<int>)

  /** Counters, gauges and buffer, changed in place under one lock. */
  class RuntimeMetricsStore {
    var totalSessionsStarted: int
    var totalSessionFailures: int
    var lastRoutedAgent: Option<string>
    var lastError: Option<string>
    var sessionsByAgent: map<string, int>
    var sessionsByTenant: map<string, int>
    var streamEvents: seq<Row>
    var overflowSinceDrain: int

    constructor ()
      ensures Model() == Initial
    {
      totalSessionsStarted, totalSessionFailures := 0, 0;
      lastRoutedAgent, lastError := None, None;
      sessionsByAgent, sessionsByTenant := map[], map[];
      streamEvents, overflowSinceDrain := [], 0;
    }

    ghost function Model(): State
      reads this
    {
      State(Counters(totalSessionsStarted, totalSessionFailures, lastRoutedAgent, lastError,
                     sessionsByAgent, sessionsByTenant),
            Buffer(streamEvents, overflowSinceDrain))
    }

    method AppendStreamEvent(row: Row)
      modifies this`streamEvents, this`overflowSinceDrain
      ensures Model() == old(Model()).(buffer := Append(old(Model().buffer), row))
    {
      if |streamEvents| >= STREAM_EVENTS_MAXLEN {
        overflowSinceDrain := overflowSinceDrain + 1;
        return;
      }
      streamEvents := streamEvents + [row];
    }

    method RecordSessionStarted(agent: string, tenant: string)
      modifies this
      ensures Model() == Record(old(Model()), Started(agent, tenant))
    {
      totalSessionsStarted := totalSessionsStarted + 1;
      lastRoutedAgent := Some(agent);
      sessionsByAgent := sessionsByAgent[agent := (if agent in sessionsByAgent then sessionsByAgent[agent] else 0) + 1];
      sessionsByTenant :=
        sessionsByTenant[tenant := (if tenant in sessionsByTenant then sessionsByTenant[tenant] else 0) + 1];
      AppendStreamEvent(SessionStarted(agent, tenant));
    }

    method RecordSessionFinished(agent: string, tenant: string)
      modifies this
      ensures Model() == Record(old(Model()), Finished(agent, tenant))
    {
      sessionsByAgent := DropOne(sessionsByAgent, agent);
      sessionsByTenant := DropOne(sessionsByTenant, tenant);
      AppendStreamEvent(SessionFinished(agent, tenant));
    }

    method RecordSessionFailure(agent: string, error: string, tenant: string)
      modifies this
      ensures Model() == Record(old(Model()), Failed(agent, tenant, error))
    {
      lastRoutedAgent := Some(agent);
      totalSessionFailures := totalSessionFailures + 1;
      lastError := Some(error);
      AppendStreamEvent(SessionFailed(agent, tenant, if |error| > ERROR_MAXLEN then error[..ERROR_MAXLEN] else error));
    }

    method DrainStreamEvents() returns (out: seq<Row>)
      modifies this`streamEvents, this`overflowSinceDrain
      ensures out == old(Delivered(Model().buffer))
      ensures Model() == old(Model()).(buffer := Buffer([], 0))
    {
      out := streamEvents;
      streamEvents := [];
      var dropped := overflowSinceDrain;
      overflowSinceDrain := 0;
      if dropped > 0 {
        out := out + [StreamOverflow(dropped)];
      }
    }

    method GetState() returns (p: Pickled)
      ensures p == PickleOf(Model())
    {
      p := Pickled(totalSessionsStarted, totalSessionFailures, lastRoutedAgent, lastError,
                   sessionsByAgent, Some(sessionsByTenant), Some(streamEvents), Some(overflowSinceDrain));
    }

    method SetState(p: Pickled)
      modifies this
      ensures Model() == StateOf(p)
    {
      totalSessionsStarted, totalSessionFailures := p.started, p.failures;
      lastRoutedAgent, lastError := p.lastAgent, p.lastError;
      sessionsByAgent := p.byAgent;
      sessionsByTenant := if p.byTenant.Some? then p.byTenant.value else map[];
      streamEvents := if p.streamEvents.Some? then p.streamEvents.value else [];
      overflowSinceDrain := if p.overflow.Some? then p.overflow.value else 0;
    }
  }

  method DropOne(counts: map<string, int>, key: string) returns (r: map<string, int>)
    ensures r == Decrement(counts, key)
  {
    var next := (if key in counts then counts[key] else 0) - 1;
    if next > 0 {
      r := counts[key := next];
    } else {
      r := counts - {key};
    }
  }

  function PickleOf(s: State): Pickled {
    var c := s.counters;
    Pickled(c.started, c.failures, c.lastAgent, c.lastError, c.byAgent,
            Some(c.byTenant), Some(s.buffer.events), Some(s.buffer.overflow))
  }

  function StateOf(p: Pickled): State
  {
    State(Counters(p.started, p.failures, p.lastAgent, p.lastError, p.byAgent,
                   if p.byTenant.Some? then p.byTenant.value else map[]),
          Buffer(if p.streamEvents.Some? then p.streamEvents.value else [],
                 if p.overflow.Some? then p.overflow.value else 0))
  }

  /** Nothing the store knows is lost on the way to another process. */
  lemma PickleRoundTrip(s: State)
    ensures StateOf(PickleOf(s)) == s
  {
  }

  // ---------------------------------------------------------------------------------------------
  // Runs of the stream buffer
  // ---------------------------------------------------------------------------------------------

  datatype StreamOp = Emit(report: Report) | Drain | Pickle

  datatype StreamTrace = StreamTrace(state: State, batches: seq<seq<Row>>)

  function PerformOp(tr: StreamTrace, op: StreamOp): StreamTrace {
    match op
    case Emit(r) => tr.(state := Record(tr.state, r))
    case Drain => StreamTrace(tr.state.(buffer := Buffer([], 0)), tr.batches + [Delivered(tr.state.buffer)])
    case Pickle => tr.(state := StateOf(PickleOf(tr.state)))
  }

  function RunOps(ops: seq<StreamOp>, n: nat): StreamTrace
    requires n <= |ops|
    decreases n
  {
    if n == 0 then StreamTrace(Initial, []) else PerformOp(RunOps(ops, n - 1), ops[n - 1])
  }

  /** Every row emitted since the last drain, without any limit. */
  function Pending(ops: seq<StreamOp>, n: nat): seq<Row>
    requires n <= |ops|
    decreases n
  {
    if n == 0 then []
    else match ops[n - 1]
      case Emit(r) => Pending(ops, n - 1) + [RowOf(r)]
      case Drain => []
      case Pickle => Pending(ops, n - 1)
  }

  function Min(a: nat, b: nat): nat {
    if a < b then a else b
  }

  /** What a drain owes for a batch: its first 256 rows, and one row counting the rest if any. */
  function Batch(rows: seq<Row>): seq<Row> {
    rows[..Min(|rows|, STREAM_EVENTS_MAXLEN)]
    + if |rows| > STREAM_EVENTS_MAXLEN then [StreamOverflow(|rows| - STREAM_EVENTS_MAXLEN)] else []
  }

  /** The buffer is the head of the pending rows and the count of the others, also after pickling. */
  lemma {:induction false} BufferHoldsHead(ops: seq<StreamOp>, n: nat)
    requires n <= |ops|
    ensures var b, rows := RunOps(ops, n).state.buffer, Pending(ops, n);
            && b.events == rows[..Min(|rows|, STREAM_EVENTS_MAXLEN)]
            && b.overflow == |rows| - Min(|rows|, STREAM_EVENTS_MAXLEN)
    decreases n
  {
    hide Count, RowOf;
    if n > 0 {
      BufferHoldsHead(ops, n - 1);
    }
  }

  /** Each drain delivers the first 256 rows since the previous one, in order, and counts the rest. */
  lemma DrainDeliversBatch(ops: seq<StreamOp>, n: nat)
    requires n < |ops| && ops[n] == Drain
    ensures RunOps(ops, n + 1).batches == RunOps(ops, n).batches + [Batch(Pending(ops, n))]
  {
    hide Count, RowOf;
    BufferHoldsHead(ops, n);
  }

  /** The rows a batch accounts for: itself, and for an overflow row as many as it reports. */
  function Accounted(batch: seq<Row>): nat {
    if batch == [] then 0
    else
      var last := batch[|batch| - 1];
      Accounted(batch[..|batch| - 1]) + if last.StreamOverflow? then last.dropped else 1
  }

  function TotalAccounted(batches: seq<seq<Row>>): nat {
    if batches == [] then 0 else TotalAccounted(batches[..|batches| - 1]) + Accounted(batches[|batches| - 1])
  }

  function Emitted(ops: seq<StreamOp>, n: nat): nat
    requires n <= |ops|
    decreases n
  {
    if n == 0 then 0 else Emitted(ops, n - 1) + if ops[n - 1].Emit? then 1 else 0
  }

  ghost predicate SessionRows(rows: seq<Row>) {
    forall i :: 0 <= i < |rows| ==> !rows[i].StreamOverflow?
  }

  lemma {:induction false} AccountedSessionRows(rows: seq<Row>)
    requires SessionRows(rows)
    ensures Accounted(rows) == |rows|
    decreases |rows|
  {
    if rows != [] {
      AccountedSessionRows(rows[..|rows| - 1]);
    }
  }

  lemma {:induction false} BatchAccountsForAll(rows: seq<Row>)
    requires SessionRows(rows)
    ensures Accounted(Batch(rows)) == |rows|
  {
    var head := rows[..Min(|rows|, STREAM_EVENTS_MAXLEN)];
    AccountedSessionRows(head);
    if |rows| > STREAM_EVENTS_MAXLEN {
      assert Batch(rows)[..|head|] == head;
    } else {
      assert Batch(rows) == head;
    }
  }

  lemma {:induction false} PendingAreSessionRows(ops: seq<StreamOp>, n: nat)
    requires n <= |ops|
    ensures SessionRows(Pending(ops, n))
    decreases n
  {
    if n > 0 {
      PendingAreSessionRows(ops, n - 1);
    }
  }

  /** Nothing is lost silently: every row emitted is delivered, reported dropped, or still pending. */
  lemma {:induction false} RowsConserved(ops: seq<StreamOp>, n: nat)
    requires n <= |ops|
    ensures Emitted(ops, n) == TotalAccounted(RunOps(ops, n).batches) + |Pending(ops, n)|
    decreases n
  {
    hide Record, StateOf, PickleOf, Delivered, Batch, RowOf;
    if n > 0 {
      RowsConserved(ops, n - 1);
      if ops[n - 1].Drain? {
        DrainDeliversBatch(ops, n - 1);
        PendingAreSessionRows(ops, n - 1);
        BatchAccountsForAll(Pending(ops, n - 1));
        var batches := RunOps(ops, n - 1).batches;
        assert RunOps(ops, n).batches[..|batches|] == batches;
      }
    }
  }

  // ---------------------------------------------------------------------------------------------
  // What rows and counters say
  // ---------------------------------------------------------------------------------------------

  /** The row says what the report did; a long error is cut after its first 500 characters. */
  predicate Tells(row: Row, r: Report) {
    match r
    case Started(agent, tenant) => row == SessionStarted(agent, tenant)
    case Finished(agent, tenant) => row == SessionFinished(agent, tenant)
    case Failed(agent, tenant, error) =>
      && row.SessionFailed? && row.agent == agent && row.tenant == tenant
      && |row.error| == Min(|error|, 500) && row.error <= error
  }

  /** Since the last drain, which was before op `d`, the pending rows tell the reports emitted, one by one and in order. */
  lemma {:induction false} RowsTellReports(ops: seq<StreamOp>, d: nat, n: nat)
    requires d <= n <= |ops| && (d > 0 ==> ops[d - 1].Drain?) && forall k :: d <= k < n ==> !ops[k].Drain?
    ensures var rows := Pending(ops, n);
            && |rows| == Emitted(ops, n) - Emitted(ops, d)
            && forall i :: d <= i < n && ops[i].Emit? ==>
                 var at := Emitted(ops, i) - Emitted(ops, d); 0 <= at < |rows| && Tells(rows[at], ops[i].report)
    decreases n
  {
    hide Tells, RowOf;
    if n > d {
      RowsTellReports(ops, d, n - 1);
      if ops[n - 1].Emit? {
        RowTells(ops[n - 1].report);
      }
      forall i | d <= i < n ensures Emitted(ops, i) <= Emitted(ops, n - 1) {
        EmittedGrows(ops, i, n - 1);
      }
    }
  }

  lemma {:induction false} RowTells(r: Report)
    ensures Tells(RowOf(r), r)
  {
  }

  lemma {:induction false} EmittedGrows(ops: seq<StreamOp>, i: nat, n: nat)
    requires i <= n <= |ops|
    ensures Emitted(ops, i) <= Emitted(ops, n)
    decreases n
  {
    if i < n {
      EmittedGrows(ops, i, n - 1);
    }
  }

  /** How many of the first `n` operations report something of this kind. */
  function Number(ops: seq<StreamOp>, n: nat, kind: Report -> bool): nat
    requires n <= |ops|
    decreases n
  {
    if n == 0 then 0 else Number(ops, n - 1, kind) + if ops[n - 1].Emit? && kind(ops[n - 1].report) then 1 else 0
  }

  /** No report of this kind among the operations from `i` to `n`. */
  ghost predicate NoneSince(ops: seq<StreamOp>, i: int, n: nat, kind: Report -> bool)
    requires n <= |ops|
  {
    forall k :: 0 <= k < n && i <= k && ops[k].Emit? ==> !kind(ops[k].report)
  }

  const IsStarted := (r: Report) => r.Started?
  const IsFailed := (r: Report) => r.Failed?
  const IsNotFinished := (r: Report) => !r.Finished?

  /**
  Over any run, drains and pickling included: as many sessions started and failed as were reported, the last error is
  that of the last failure, whole, and the last agent that of the last start or failure.
  */
  lemma {:induction false} CountersTellReports(ops: seq<StreamOp>, n: nat)
    requires n <= |ops|
    ensures var c := RunOps(ops, n).state.counters;
            && c.started == Number(ops, n, IsStarted) && c.failures == Number(ops, n, IsFailed)
            && (NoneSince(ops, 0, n, IsFailed) ==> c.lastError.None?)
            && (NoneSince(ops, 0, n, IsNotFinished) ==> c.lastAgent.None?)
            && (forall i :: 0 <= i < n && ops[i].Emit? && ops[i].report.Failed? && NoneSince(ops, i + 1, n, IsFailed) ==>
                  c.lastError == Some(ops[i].report.error))
            && (forall i :: 0 <= i < n && ops[i].Emit? && !ops[i].report.Finished? && NoneSince(ops, i + 1, n, IsNotFinished) ==>
                  c.lastAgent == Some(ops[i].report.agent))
    decreases n
  {
    hide Append, RowOf, NoneSince, Increment, Decrement;
    if n > 0 {
      CountersTellReports(ops, n - 1);
      forall i: int ensures NoneSince(ops, i, n, IsFailed)
                            <==> NoneSince(ops, i, n - 1, IsFailed) && (i < n && ops[n - 1].Emit? ==> !ops[n - 1].report.Failed?)
      {
        NoneSinceStep(ops, i, n, IsFailed);
      }
      forall i: int ensures NoneSince(ops, i, n, IsNotFinished)
                            <==> NoneSince(ops, i, n - 1, IsNotFinished) && (i < n && ops[n - 1].Emit? ==> ops[n - 1].report.Finished?)
      {
        NoneSinceStep(ops, i, n, IsNotFinished);
      }
      PickleRoundTrip(RunOps(ops, n - 1).state);
    }
  }

  lemma {:induction false} NoneSinceStep(ops: seq<StreamOp>, i: int, n: nat, kind: Report -> bool)
    requires 0 < n <= |ops|
    ensures NoneSince(ops, i, n, kind)
            <==> NoneSince(ops, i, n - 1, kind) && (i < n && ops[n - 1].Emit? ==> !kind(ops[n - 1].report))
  {
  }

  // ---------------------------------------------------------------------------------------------
  // Gauges
  // ---------------------------------------------------------------------------------------------

  /** The sum of the gauges, as a snapshot reports active sessions. */
  ghost function Sum(counts: map<string, int>): int
    decreases |counts|
  {
    if counts == map[] then 0
    else
      var key :| key in counts;
      assert |counts - {key}| < |counts| by { MapShrinks(counts, key); }
      counts[key] + Sum(counts - {key})
  }

  lemma MapShrinks(counts: map<string, int>, key: string)
    requires key in counts
    ensures |counts - {key}| == |counts| - 1
  {
  }

  /** A sum can be split at any key. */
  lemma {:induction false} SumSplits(counts: map<string, int>, key: string)
    requires key in counts
    ensures Sum(counts) == counts[key] + Sum(counts - {key})
    decreases |counts|
  {
    var first :| first in counts && Sum(counts) == counts[first] + Sum(counts - {first});
    if first != key {
      MapShrinks(counts, first);
      SumSplits(counts - {first}, key);
      MapShrinks(counts, key);
      SumSplits(counts - {key}, first);
      assert counts - {first} - {key} == counts - {key} - {first};
    }
  }

  lemma {:induction false} SumRemoves(counts: map<string, int>, key: string)
    ensures Sum(counts - {key}) == Sum(counts) - Gauge(counts, key)
  {
    if key in counts {
      SumSplits(counts, key);
    } else {
      assert counts - {key} == counts;
    }
  }

  lemma {:induction false} SumUpdates(counts: map<string, int>, key: string, value: int)
    ensures Sum(counts[key := value]) == Sum(counts) - Gauge(counts, key) + value
  {
    SumSplits(counts[key := value], key);
    assert counts[key := value] - {key} == counts - {key};
    SumRemoves(counts, key);
  }
}
