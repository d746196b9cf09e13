/**
The debounced change buffer in front of hot reload (src/openrtc/runtime/file_watcher.py): batches are
collected until the file system has been quiet for a while, then collapsed to one change a path.
*/
module FileWatcher {
  import opened Wrappers

  datatype ChangeType = Created | Modified | Deleted

  datatype FileChange = FileChange(path: string, changeType: ChangeType)

  // ---------------------------------------------------------------------------------------------
  // Collapsing
  // ---------------------------------------------------------------------------------------------

  /** Deleted wins over created, created over modified. */
  function Stronger(a: ChangeType, b: ChangeType): ChangeType {
    if a.Deleted? || b.Deleted? then Deleted else if a.Created? || b.Created? then Created else Modified
  }

  function IndexOf(changes: seq<FileChange>, path: string): Option<nat>
    decreases |changes|
  {
    if changes == [] then None
    else if changes[0].path == path then Some(0)
    else
      var i := IndexOf(changes[1..], path);
      if i.Some? then Some(i.value + 1) else None
  }

  lemma {:induction false} IndexOfMeans(changes: seq<FileChange>, path: string)
    ensures var i := IndexOf(changes, path);
            && (i.Some? ==> i.value < |changes| && changes[i.value].path == path
                            && forall k :: 0 <= k < i.value ==> changes[k].path != path)
            && (i.None? ==> forall k :: 0 <= k < |changes| ==> changes[k].path != path)
    decreases |changes|
  {
    if changes != [] {
      IndexOfMeans(changes[1..], path);
    }
  }

  /** One more change: strengthens the entry of its path, or opens one at the end. */
  function Merge(collapsed: seq<FileChange>, c: FileChange): seq<FileChange> {
    IndexOfMeans(collapsed, c.path);
    var i := IndexOf(collapsed, c.path);
    if i.Some? then collapsed[i.value := FileChange(c.path, Stronger(collapsed[i.value].changeType, c.changeType))]
    else collapsed + [c]
  }

  function MergeAll(collapsed: seq<FileChange>, changes: seq<FileChange>): seq<FileChange>
    decreases |changes|
  {
    if changes == [] then collapsed
    else Merge(MergeAll(collapsed, changes[..|changes| - 1]), changes[|changes| - 1])
  }

  function Collapse(changes: seq<FileChange>): seq<FileChange> {
    MergeAll([], changes)
  }

  function Choose(types: seq<ChangeType>): ChangeType {
    if Deleted in types then Deleted else if Created in types then Created else Modified
  }

  lemma {:induction false} ChooseAppend(types: seq<ChangeType>, t: ChangeType)
    ensures types != [] ==> Choose(types + [t]) == Stronger(Choose(types), t)
    ensures Choose([t]) == t
  {
  }

  method ChooseType(types: seq<ChangeType>) returns (chosen: ChangeType)
    ensures chosen == Choose(types)
  {
    if Deleted in types {
      return Deleted;
    }
    if Created in types {
      return Created;
    }
    return Modified;
  }

  /** Groups the types by path in first-seen order, then picks one type for each path. */
  method CollapseChanges(changes: seq<FileChange>) returns (collapsed: seq<FileChange>)
    ensures collapsed == Collapse(changes)
  {
    hide Merge, Choose;
    var byPath: map<string, seq<ChangeType>> := map[];
    var paths: seq<string> := [];
    for i := 0 to |changes|
      invariant Grouped(byPath, paths, Collapse(changes[..i]))
    {
      var c := changes[i];
      GroupOne(byPath, paths, Collapse(changes[..i]), c);
      assert changes[..i + 1][..i] == changes[..i];
      if c.path in byPath {
        byPath := byPath[c.path := byPath[c.path] + [c.changeType]];
      } else {
        byPath := byPath[c.path := [c.changeType]];
        paths := paths + [c.path];
      }
    }
    assert changes[..|changes|] == changes;
    collapsed := [];
    for i := 0 to |paths|
      invariant collapsed == Collapse(changes)[..i]
    {
      var chosen := ChooseType(byPath[paths[i]]);
      collapsed := collapsed + [FileChange(paths[i], chosen)];
    }
  }

  /** The dictionary holds, path by path and in order, what the collapsed list says. */
  ghost predicate Grouped(byPath: map<string, seq<ChangeType>>, paths: seq<string>, collapsed: seq<FileChange>) {
    && |paths| == |collapsed|
    && DistinctPaths(collapsed)
    && (forall p :: p in byPath ==> exists i :: 0 <= i < |paths| && paths[i] == p)
    && forall i :: 0 <= i < |paths| ==>
         && paths[i] == collapsed[i].path
         && paths[i] in byPath && byPath[paths[i]] != []
         && collapsed[i].changeType == Choose(byPath[paths[i]])
  }

  lemma {:induction false} GroupOne(byPath: map<string, seq<ChangeType>>, paths: seq<string>,
                                    collapsed: seq<FileChange>, c: FileChange)
    requires Grouped(byPath, paths, collapsed)
    ensures c.path in byPath ==>
              Grouped(byPath[c.path := byPath[c.path] + [c.changeType]], paths, Merge(collapsed, c))
    ensures c.path !in byPath ==> Grouped(byPath[c.path := [c.changeType]], paths + [c.path], Merge(collapsed, c))
  {
    hide Choose, Stronger;
    IndexOfMeans(collapsed, c.path);
    MergeKeepsDistinct(collapsed, c);
    if c.path in byPath {
      ChooseAppend(byPath[c.path], c.changeType);
    } else {
      ChooseAppend([], c.changeType);
      var byPath', paths' := byPath[c.path := [c.changeType]], paths + [c.path];
      assert forall i :: 0 <= i < |paths| ==> paths[i] == collapsed[i].path;
      forall p | p in byPath' ensures exists i :: 0 <= i < |paths'| && paths'[i] == p {
        if p == c.path {
          assert paths'[|paths|] == p;
        } else {
          var i :| 0 <= i < |paths| && paths[i] == p;
          assert paths'[i] == p;
        }
      }
    }
  }

  ghost predicate DistinctPaths(changes: seq<FileChange>) {
    forall i, j :: 0 <= i < j < |changes| ==> changes[i].path != changes[j].path
  }

  lemma {:induction false} MergeKeepsDistinct(collapsed: seq<FileChange>, c: FileChange)
    requires DistinctPaths(collapsed)
    ensures DistinctPaths(Merge(collapsed, c))
  {
    IndexOfMeans(collapsed, c.path);
  }

  lemma {:induction false} MergeAllKeepsDistinct(collapsed: seq<FileChange>, changes: seq<FileChange>)
    requires DistinctPaths(collapsed)
    ensures DistinctPaths(MergeAll(collapsed, changes))
    decreases |changes|
  {
    if changes != [] {
      MergeAllKeepsDistinct(collapsed, changes[..|changes| - 1]);
      MergeKeepsDistinct(MergeAll(collapsed, changes[..|changes| - 1]), changes[|changes| - 1]);
    }
  }

  /** How a change of a path stands in a list. */
  ghost predicate Has(changes: seq<FileChange>, path: string, t: ChangeType) {
    exists i :: 0 <= i < |changes| && changes[i] == FileChange(path, t)
  }

  ghost predicate Touches(changes: seq<FileChange>, path: string) {
    exists i :: 0 <= i < |changes| && changes[i].path == path
  }

  /** The type the list as a whole stands for: deleted if ever deleted, else created if ever created. */
  ghost function Verdict(changes: seq<FileChange>, path: string): ChangeType {
    if Has(changes, path, Deleted) then Deleted else if Has(changes, path, Created) then Created else Modified
  }

  lemma {:induction false} VerdictAppend(changes: seq<FileChange>, c: FileChange, path: string)
    ensures Touches(changes + [c], path) <==> Touches(changes, path) || c.path == path
    ensures c.path != path ==> Verdict(changes + [c], path) == Verdict(changes, path)
    ensures c.path == path ==>
              Verdict(changes + [c], path)
              == if Touches(changes, path) then Stronger(Verdict(changes, path), c.changeType) else c.changeType
  {
    var all := changes + [c];
    assert all[|changes|] == c;
    forall t: ChangeType ensures Has(all, path, t) <==> Has(changes, path, t) || c == FileChange(path, t) {
      if Has(changes, path, t) {
        var i :| 0 <= i < |changes| && changes[i] == FileChange(path, t);
        assert all[i] == changes[i];
      }
    }
    if Touches(changes, path) {
      var i :| 0 <= i < |changes| && changes[i].path == path;
      assert all[i].path == path;
      assert Has(changes, path, changes[i].changeType);
    }
  }

  /** What collapsing comes to: each touched path once, with the list's verdict on it. */
  lemma {:induction false} CollapseMeans(changes: seq<FileChange>, path: string)
    ensures DistinctPaths(Collapse(changes))
    ensures Touches(Collapse(changes), path) <==> Touches(changes, path)
    ensures Touches(changes, path) ==> Has(Collapse(changes), path, Verdict(changes, path))
    decreases |changes|
  {
    hide Verdict;
    MergeAllKeepsDistinct([], changes);
    if changes != [] {
      var init, c := changes[..|changes| - 1], changes[|changes| - 1];
      CollapseMeans(init, path);
      CollapseMeans(init, c.path);
      VerdictAppend(init, c, path);
      assert init + [c] == changes;
      MergeMeans(Collapse(init), c, path);
      if Touches(init, path) && c.path == path {
        HasOne(Collapse(init), path, Verdict(init, path));
      }
    }
  }

  /** Where a path is first seen does not change with what follows. */
  lemma {:induction false} IndexOfAppend(changes: seq<FileChange>, c: FileChange, path: string)
    ensures IndexOf(changes + [c], path)
            == if IndexOf(changes, path).Some? then IndexOf(changes, path)
               else if c.path == path then Some(|changes|)
               else None
  {
    IndexOfMeans(changes, path);
    IndexOfMeans(changes + [c], path);
    var i := IndexOf(changes + [c], path);
    assert forall k :: 0 <= k < |changes| ==> (changes + [c])[k] == changes[k];
    assert (changes + [c])[|changes|] == c;
  }

  /** The paths stand in the order in which the changes first name them. */
  ghost predicate FirstSeenOrder(collapsed: seq<FileChange>, changes: seq<FileChange>) {
    && (forall i :: 0 <= i < |collapsed| ==> IndexOf(changes, collapsed[i].path).Some?)
    && forall i, k :: 0 <= i < k < |collapsed| ==>
         IndexOf(changes, collapsed[i].path).value < IndexOf(changes, collapsed[k].path).value
  }

  /** Collapsing keeps the paths in the order in which they were first seen. */
  lemma {:induction false} CollapseInOrder(changes: seq<FileChange>)
    ensures FirstSeenOrder(Collapse(changes), changes)
    decreases |changes|
  {
    hide IndexOf;
    if changes != [] {
      var init, c := changes[..|changes| - 1], changes[|changes| - 1];
      assert changes == init + [c];
      CollapseInOrder(init);
      CollapseMeans(init, c.path);
      IndexOfMeans(init, c.path);
      IndexOfMeans(Collapse(init), c.path);
      MergeInOrder(Collapse(init), init, c);
    }
  }

  lemma {:induction false} MergeInOrder(collapsed: seq<FileChange>, changes: seq<FileChange>, c: FileChange)
    requires FirstSeenOrder(collapsed, changes)
    requires IndexOf(collapsed, c.path).None? ==> IndexOf(changes, c.path).None?
    ensures FirstSeenOrder(Merge(collapsed, c), changes + [c])
  {
    hide IndexOf, Stronger;
    IndexOfMeans(collapsed, c.path);
    forall path ensures IndexOf(changes + [c], path)
                        == if IndexOf(changes, path).Some? then IndexOf(changes, path)
                           else if c.path == path then Some(|changes|)
                           else None
    {
      IndexOfAppend(changes, c, path);
    }
    forall path ensures IndexOf(changes, path).Some? ==> IndexOf(changes, path).value < |changes| {
      IndexOfMeans(changes, path);
    }
  }

  lemma {:induction false} HasOne(collapsed: seq<FileChange>, path: string, t: ChangeType)
    requires DistinctPaths(collapsed) && Has(collapsed, path, t)
    ensures IndexOf(collapsed, path).Some? && IndexOf(collapsed, path).value < |collapsed|
            && collapsed[IndexOf(collapsed, path).value] == FileChange(path, t)
  {
    IndexOfMeans(collapsed, path);
    var i :| 0 <= i < |collapsed| && collapsed[i] == FileChange(path, t);
  }

  lemma {:induction false} MergeMeans(collapsed: seq<FileChange>, c: FileChange, path: string)
    requires DistinctPaths(collapsed)
    ensures Touches(Merge(collapsed, c), path) <==> Touches(collapsed, path) || c.path == path
    ensures forall t: ChangeType :: c.path != path && Has(collapsed, path, t) ==> Has(Merge(collapsed, c), path, t)
    ensures c.path == path && IndexOf(collapsed, path).Some? && IndexOf(collapsed, path).value < |collapsed| ==>
              Has(Merge(collapsed, c), path,
                  Stronger(collapsed[IndexOf(collapsed, path).value].changeType, c.changeType))
    ensures c.path == path && !Touches(collapsed, path) ==> Has(Merge(collapsed, c), path, c.changeType)
  {
    hide Stronger;
    IndexOfMeans(collapsed, c.path);
    var merged := Merge(collapsed, c);
    if Touches(collapsed, path) {
      var i :| 0 <= i < |collapsed| && collapsed[i].path == path;
      assert merged[i].path == path;
    }
    forall t: ChangeType | c.path != path && Has(collapsed, path, t) ensures Has(merged, path, t) {
      var i :| 0 <= i < |collapsed| && collapsed[i] == FileChange(path, t);
      assert merged[i] == FileChange(path, t);
    }
    var at := IndexOf(collapsed, c.path);
    if at.Some? {
      assert merged[at.value].path == c.path;
    } else {
      assert merged[|collapsed|] == c;
    }
  }

  lemma {:induction false} MergeAllAppend(collapsed: seq<FileChange>, a: seq<FileChange>, b: seq<FileChange>)
    ensures MergeAll(collapsed, a + b) == MergeAll(MergeAll(collapsed, a), b)
    decreases |b|
  {
    hide Merge;
    if b == [] {
      assert a + b == a;
    } else {
      var init := b[..|b| - 1];
      MergeAllAppend(collapsed, a, init);
      assert (a + b)[..|a + b| - 1] == a + init;
    }
  }

  /** A list with each path once is collapsed already. */
  lemma {:induction false} CollapseOfDistinct(changes: seq<FileChange>)
    requires DistinctPaths(changes)
    ensures Collapse(changes) == changes
    decreases |changes|
  {
    if changes != [] {
      var init, c := changes[..|changes| - 1], changes[|changes| - 1];
      CollapseOfDistinct(init);
      IndexOfMeans(init, c.path);
    }
  }

  /** Collapsing early changes nothing: what was collapsed may be collapsed again with what follows. */
  lemma {:induction false} CollapseInStages(a: seq<FileChange>, b: seq<FileChange>)
    ensures Collapse(a + b) == Collapse(Collapse(a) + b)
  {
    hide MergeAll;
    MergeAllKeepsDistinctHidden(a);
    CollapseOfDistinct(Collapse(a));
    MergeAllAppend([], a, b);
    MergeAllAppend([], Collapse(a), b);
  }

  lemma {:induction false} MergeAllKeepsDistinctHidden(a: seq<FileChange>)
    ensures DistinctPaths(Collapse(a))
  {
    MergeAllKeepsDistinct([], a);
  }

  // ---------------------------------------------------------------------------------------------
  // The debounce buffer
  // ---------------------------------------------------------------------------------------------

  /** A notification of the file system: a kind the watcher may not know, and a path as it was reported. */
  datatype RawChange = RawChange(kind: Option<ChangeType>, path: string)

  /** `Path.resolve`: the one name of the file behind a path. */
  type Resolver = string -> string

  ghost predicate Idempotent(resolve: Resolver) {
    forall p :: resolve(resolve(p)) == resolve(p)
  }

  /** Unknown kinds are ignored, paths are resolved. */
  function Translate(resolve: Resolver, raw: seq<RawChange>): seq<FileChange>
    decreases |raw|
  {
    if raw == [] then []
    else
      var last := raw[|raw| - 1];
      Translate(resolve, raw[..|raw| - 1])
      + if last.kind.Some? then [FileChange(resolve(last.path), last.kind.value)] else []
  }

  /** How many notifications before `i` are of a kind the watcher knows. */
  function KnownBefore(raw: seq<RawChange>, i: nat): nat
    requires i <= |raw|
    decreases i
  {
    if i == 0 then 0 else KnownBefore(raw, i - 1) + if raw[i - 1].kind.Some? then 1 else 0
  }

  lemma {:induction false} KnownInPrefix(raw: seq<RawChange>, n: nat, i: nat)
    requires i <= n <= |raw|
    ensures KnownBefore(raw[..n], i) == KnownBefore(raw, i) <= KnownBefore(raw, n)
    decreases n
  {
    SameKnown(raw, n, i);
    if i < n {
      KnownInPrefix(raw, n - 1, i);
    }
  }

  lemma {:induction false} SameKnown(raw: seq<RawChange>, n: nat, i: nat)
    requires i <= n <= |raw|
    ensures KnownBefore(raw[..n], i) == KnownBefore(raw, i)
    decreases i
  {
    if i > 0 {
      SameKnown(raw, n, i - 1);
    }
  }

  /** Each known notification becomes one change, of its kind and under its resolved path, at its place among them. */
  lemma {:induction false} TranslateExactly(resolve: Resolver, raw: seq<RawChange>)
    ensures var batch := Translate(resolve, raw);
            && |batch| == KnownBefore(raw, |raw|)
            && forall i :: 0 <= i < |raw| && raw[i].kind.Some? ==>
                 var at := KnownBefore(raw, i);
                 at < |batch| && batch[at] == FileChange(resolve(raw[i].path), raw[i].kind.value)
    decreases |raw|
  {
    if raw != [] {
      var init, last := raw[..|raw| - 1], raw[|raw| - 1];
      TranslateExactly(resolve, init);
      forall i: nat | i <= |init| ensures KnownBefore(init, i) == KnownBefore(raw, i) <= KnownBefore(raw, |init|) {
        KnownInPrefix(raw, |init|, i);
      }
    }
  }

  /** Notifications of unknown kinds alone leave the timer, and a callback in progress, as they are. */
  lemma {:induction false} UnknownKindsIgnored(resolve: Resolver, b: Buffer, raw: seq<RawChange>)
    requires forall i :: 0 <= i < |raw| ==> raw[i].kind.None?
    ensures Turn(resolve, b, Notified(raw)) == b
  {
    hide Translate;
    TranslateExactly(resolve, raw);
    NoneKnown(raw, |raw|);
  }

  lemma {:induction false} NoneKnown(raw: seq<RawChange>, n: nat)
    requires n <= |raw| && forall i :: 0 <= i < |raw| ==> raw[i].kind.None?
    ensures KnownBefore(raw, n) == 0
    decreases n
  {
    if n > 0 {
      NoneKnown(raw, n - 1);
    }
  }

  datatype Mode = New | Watching | Stopped

  /** The flush task: none, asleep until the quiet period is over, or inside the callback. */
  datatype Flush = NoFlush | Sleeping | Delivering(changes: seq<FileChange>)

  datatype Buffer = Buffer(
    mode: Mode,
    pending: seq<FileChange>,
    flush: Flush,
    received: seq<FileChange>,          // every change received while watching
    flushed: seq<FileChange>,           // the raw changes taken out of the buffer so far
    handed: seq<seq<FileChange>>,       // the lists the callback was given
    interrupted: seq<seq<FileChange>>)  // those whose callback was cancelled

  const Empty := Buffer(New, [], NoFlush, [], [], [], [])

  datatype Event =
    | Start
    | Notified(raw: seq<RawChange>)
    | TimerFires(suspends: bool)  // whether the callback suspends or comes back at once
    | CallbackEnds
    | Stop

  predicate Happens(b: Buffer, e: Event) {
    match e
    case Start => b.mode.New?
    case Notified(_) => b.mode.Watching?
    case TimerFires(_) => b.flush.Sleeping?
    case CallbackEnds => b.flush.Delivering?
    case Stop => !b.mode.Stopped?
  }

  /** The callback the flush is in, if any, is cut short. */
  function Cut(b: Buffer): seq<seq<FileChange>> {
    if b.flush.Delivering? then b.interrupted + [b.flush.changes] else b.interrupted
  }

  function Receive(b: Buffer, batch: seq<FileChange>): Buffer {
    b.(pending := b.pending + batch, received := b.received + batch, flush := Sleeping, interrupted := Cut(b))
  }

  function FlushOut(b: Buffer, suspends: bool): Buffer {
    var collapsed := Collapse(b.pending);
    b.(pending := [],
       flushed := b.flushed + b.pending,
       handed := if collapsed == [] then b.handed else b.handed + [collapsed],
       flush := if collapsed != [] && suspends then Delivering(collapsed) else NoFlush)
  }

  function ShutDown(b: Buffer): Buffer {
    b.(mode := Stopped, pending := [], flush := NoFlush, interrupted := Cut(b))
  }

  function Next(resolve: Resolver, b: Buffer, e: Event): Buffer
    requires Happens(b, e)
  {
    match e
    case Start => b.(mode := Watching)
    case Notified(raw) => if Translate(resolve, raw) == [] then b else Receive(b, Translate(resolve, raw))
    case TimerFires(suspends) => FlushOut(b, suspends)
    case CallbackEnds => b.(flush := NoFlush)
    case Stop => ShutDown(b)
  }

  class Watcher {
    var mode: Mode
    var pending: seq<FileChange>
    var flush: Flush
    var received: seq<FileChange>
    var flushed: seq<FileChange>
    var handed: seq<seq<FileChange>>
    var interrupted: seq<seq<FileChange>>

    constructor ()
      ensures Model() == Empty
    {
      mode, pending, flush := New, [], NoFlush;
      received, flushed, handed, interrupted := [], [], [], [];
    }

    ghost function Model(): Buffer
      reads this
    {
      Buffer(mode, pending, flush, received, flushed, handed, interrupted)
    }

    method CancelFlush()
      modifies this`flush, this`interrupted
      ensures flush == NoFlush
      ensures interrupted == old(Cut(Model()))
    {
      if flush.Delivering? {
        interrupted := interrupted + [flush.changes];
      }
      flush := NoFlush;
    }

    /** One round of the watch loop: what the file system reported becomes a batch. */
    method WatchRound(raw: seq<RawChange>, resolve: Resolver)
      requires Happens(Model(), Notified(raw))
      modifies this
      ensures Model() == Next(resolve, old(Model()), Notified(raw))
    {
      var batch: seq<FileChange> := [];
      for i := 0 to |raw|
        invariant batch == Translate(resolve, raw[..i])
        invariant Model() == old(Model())
      {
        assert raw[..i + 1][..i] == raw[..i];
        if raw[i].kind.None? {
          continue;
        }
        batch := batch + [FileChange(resolve(raw[i].path), raw[i].kind.value)];
      }
      assert raw[..|raw|] == raw;
      if batch != [] {
        HandleChangeBatch(batch);
      }
    }

    method HandleChangeBatch(batch: seq<FileChange>)
      modifies this
      ensures Model() == Receive(old(Model()), batch)
    {
      pending := pending + batch;
      received := received + batch;
      if flush != NoFlush {
        CancelFlush();
      }
      flush := Sleeping;
    }

    /** The flush task once its sleep is over. */
    method FlushAfter(suspends: bool)
      modifies this
      ensures Model() == FlushOut(old(Model()), suspends)
    {
      var collapsed := CollapseChanges(pending);
      flushed := flushed + pending;
      pending := [];
      if collapsed == [] {
        flush := NoFlush;
        return;
      }
      handed := handed + [collapsed];
      flush := if suspends then Delivering(collapsed) else NoFlush;
    }

    method StopWatching()
      modifies this
      ensures Model() == if old(mode).Stopped? then old(Model()) else ShutDown(old(Model()))
    {
      if mode.Stopped? {
        return;
      }
      mode := Stopped;
      if flush != NoFlush {
        CancelFlush();
      }
      pending := [];
    }
  }

  function Turn(resolve: Resolver, b: Buffer, e: Event): Buffer {
    if Happens(b, e) then Next(resolve, b, e) else b
  }

  function After(resolve: Resolver, events: seq<Event>, n: nat): Buffer
    requires n <= |events|
    decreases n
  {
    if n == 0 then Empty else Turn(resolve, After(resolve, events, n - 1), events[n - 1])
  }

  /** Nothing lost, nothing twice, and never changes without a timer to flush them. */
  ghost predicate Conserves(b: Buffer) {
    && (b.mode.Watching? ==> b.received == b.flushed + b.pending)
    && (b.pending != [] ==> b.flush.Sleeping?)
    && (!b.mode.Watching? ==> b.pending == [] && b.flush.NoFlush?)
    && (b.mode.New? ==> b.received == [] && b.flushed == [])
  }

  lemma {:induction false} TurnConserves(resolve: Resolver, b: Buffer, e: Event)
    requires Conserves(b)
    ensures Conserves(Turn(resolve, b, e))
  {
  }

  /**
  While watching, the changes flushed so far followed by the pending ones are those received, in order,
  and pending changes always have an armed timer; after stopping nothing is pending or armed.
  */
  lemma {:induction false} DebounceConserves(resolve: Resolver, events: seq<Event>, n: nat)
    requires n <= |events|
    ensures Conserves(After(resolve, events, n))
    decreases n
  {
    hide Turn;
    if n > 0 {
      DebounceConserves(resolve, events, n - 1);
      TurnConserves(resolve, After(resolve, events, n - 1), events[n - 1]);
    }
  }

  /** The raw changes between two flushes, as the batches delivered them. */
  function Groups(resolve: Resolver, events: seq<Event>, n: nat): seq<seq<FileChange>>
    requires n <= |events|
    decreases n
  {
    if n == 0 then []
    else
      var b := After(resolve, events, n - 1);
      Groups(resolve, events, n - 1)
      + if Happens(b, events[n - 1]) && events[n - 1].TimerFires? && b.pending != [] then [b.pending] else []
  }

  lemma {:induction false} CollapseEmpty(changes: seq<FileChange>)
    ensures Collapse(changes) == [] <==> changes == []
  {
    if changes != [] {
      CollapseMeans(changes, changes[0].path);
      assert Touches(changes, changes[0].path);
    }
  }

  /** Each flush hands the callback the collapse of what came since the last one, with no path twice. */
  lemma {:induction false} FlushesHandCollapsed(resolve: Resolver, events: seq<Event>, n: nat)
    requires n <= |events|
    ensures var b := After(resolve, events, n);
            && |b.handed| == |Groups(resolve, events, n)|
            && forall i :: 0 <= i < |b.handed| ==>
                 b.handed[i] == Collapse(Groups(resolve, events, n)[i]) && DistinctPaths(b.handed[i])
    decreases n
  {
    hide Collapse, Translate;
    if n > 0 {
      FlushesHandCollapsed(resolve, events, n - 1);
      var b := After(resolve, events, n - 1);
      CollapseEmpty(b.pending);
      MergeAllKeepsDistinctHidden(b.pending);
    }
  }

  // ---------------------------------------------------------------------------------------------
  // One name a file
  // ---------------------------------------------------------------------------------------------

  /** Every path in the list is the one name of its file. */
  ghost predicate Resolved(resolve: Resolver, changes: seq<FileChange>) {
    forall i :: 0 <= i < |changes| ==> resolve(changes[i].path) == changes[i].path
  }

  lemma {:induction false} TranslateResolves(resolve: Resolver, raw: seq<RawChange>)
    requires Idempotent(resolve)
    ensures Resolved(resolve, Translate(resolve, raw))
    decreases |raw|
  {
    if raw != [] {
      TranslateResolves(resolve, raw[..|raw| - 1]);
    }
  }

  /** What is pending, and what came between two flushes, names each file by its resolved path. */
  lemma {:induction false} BufferResolved(resolve: Resolver, events: seq<Event>, n: nat)
    requires n <= |events| && Idempotent(resolve)
    ensures Resolved(resolve, After(resolve, events, n).pending)
    ensures forall i :: 0 <= i < |Groups(resolve, events, n)| ==> Resolved(resolve, Groups(resolve, events, n)[i])
    decreases n
  {
    hide Collapse, Translate, Idempotent;
    if n > 0 {
      BufferResolved(resolve, events, n - 1);
      if events[n - 1].Notified? {
        TranslateResolves(resolve, events[n - 1].raw);
      }
    }
  }

  // ---------------------------------------------------------------------------------------------
  // When a callback is cut short
  // ---------------------------------------------------------------------------------------------

  /** How many of the callbacks made in the first `n` events came to their end by themselves. */
  function CameBack(resolve: Resolver, events: seq<Event>, n: nat): nat
    requires n <= |events|
    decreases n
  {
    if n == 0 then 0
    else
      var b, e := After(resolve, events, n - 1), events[n - 1];
      CameBack(resolve, events, n - 1)
      + if (b.flush.Delivering? && e.CallbackEnds?)
           || (b.flush.Sleeping? && b.pending != [] && e.TimerFires? && !e.suspends) then 1 else 0
  }

  /** Each list handed over was worked through, or its callback was cut short, or is still at it; and only one is. */
  lemma {:induction false} CallbacksAccounted(resolve: Resolver, events: seq<Event>, n: nat)
    requires n <= |events|
    ensures var b := After(resolve, events, n);
            |b.handed| == CameBack(resolve, events, n) + |b.interrupted| + if b.flush.Delivering? then 1 else 0
    decreases n
  {
    hide Collapse, Translate;
    if n > 0 {
      CallbacksAccounted(resolve, events, n - 1);
      CollapseEmpty(After(resolve, events, n - 1).pending);
    }
  }

  /** The run calls a callback that suspends only if `suspending` ones are allowed. */
  ghost predicate Calls(events: seq<Event>, suspending: bool) {
    forall i :: 0 <= i < |events| && events[i].TimerFires? ==> events[i].suspends ==> suspending
  }

  ghost predicate EveryCallbackFinishes(resolve: Resolver, suspending: bool) {
    forall events, n: nat :: n <= |events| && Calls(events, suspending) ==> After(resolve, events, n).interrupted == []
  }

  lemma {:induction false} SynchronousCallbackFinishes(resolve: Resolver, events: seq<Event>, n: nat)
    requires n <= |events| && Calls(events, false)
    ensures After(resolve, events, n).interrupted == [] && !After(resolve, events, n).flush.Delivering?
    decreases n
  {
    hide Collapse, Translate;
    if n > 0 {
      SynchronousCallbackFinishes(resolve, events, n - 1);
    }
  }

  /** A batch that arrives while the callback is suspended cancels it, and its changes are not handed again. */
  lemma {:induction false} SuspendedCallbackIsCut(resolve: Resolver, a: seq<RawChange>, b: seq<RawChange>)
    requires Translate(resolve, a) != [] && Translate(resolve, b) != []
    ensures var events := [Start, Notified(a), TimerFires(true), Notified(b), TimerFires(false)];
            var first, second := Collapse(Translate(resolve, a)), Collapse(Translate(resolve, b));
            After(resolve, events, 5).interrupted == [first] && After(resolve, events, 5).handed == [first, second]
  {
    hide Collapse, Translate;
    var x, y := Translate(resolve, a), Translate(resolve, b);
    CollapseEmpty(x);
    CollapseEmpty(y);
    var events := [Start, Notified(a), TimerFires(true), Notified(b), TimerFires(false)];
    assert After(resolve, events, 1) == Empty.(mode := Watching);
    assert [] + x == x && [] + y == y;
    assert After(resolve, events, 2) == After(resolve, events, 1).(pending := x, received := x, flush := Sleeping);
    assert After(resolve, events, 3).flush == Delivering(Collapse(x)) && After(resolve, events, 3).pending == [];
    assert After(resolve, events, 4).flush == Sleeping && After(resolve, events, 4).pending == y;
  }

  /** No callback is ever cut short if and only if callbacks do not suspend. */
  lemma {:induction false} CallbacksFinishExactly(resolve: Resolver, suspending: bool)
    ensures EveryCallbackFinishes(resolve, suspending) <==> !suspending
  {
    hide After;
    if suspending {
      var a := [RawChange(Some(Modified), "a.py")];
      var events := [Start, Notified(a), TimerFires(true), Notified(a), TimerFires(false)];
      assert a[..0] == [] && Translate(resolve, a) == [FileChange(resolve("a.py"), Modified)];
      SuspendedCallbackIsCut(resolve, a, a);
      assert Calls(events, true) && After(resolve, events, 5).interrupted != [];
    } else {
      forall events, n: nat | n <= |events| && Calls(events, false) ensures After(resolve, events, n).interrupted == [] {
        SynchronousCallbackFinishes(resolve, events, n);
      }
    }
  }
}
