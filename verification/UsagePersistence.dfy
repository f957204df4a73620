/** The buffered usage-event sink (opsrag/usage_persistence.py, lines 57-213).

    Events are numbered in the order they are accepted, and a number stands for its row: the sink never looks at the
    columns.  `State` says where each one is; `Step` is what the sink does
    between two awaits, so every interleaving of enqueues with a flush, and a database failure at any await, is a
    sequence of steps.  Task cancellation is not part of this model. */
module UsagePersistence {

  import opened Options

  const CAP: nat := 50_000
  const DROP: nat := 5_000

  /** A batch swapped out of the buffer, of which the first `committed` rows are in the table (the pool autocommits). */
  datatype SwappedOut = Batch(events: seq<nat>, committed: nat)

  type Batch = b: SwappedOut | b.committed <= |b.events| witness Batch([], 0)

  datatype State = State(
    accepted: nat,
    buffer: seq<nat>,
    inFlight: Option<Batch>,
    discharged: seq<nat>,      // batches whose flush succeeded
    dropped: seq<nat>,         // lost to overflow
    droppedCount: nat,         // the counter `_dropped`
    table: seq<nat>,           // opsrag_usage_events, in insertion order
    wasted: multiset<nat>)     // rows committed by flushes that then failed

  datatype Action = Enqueue | Swap | Commit(rows: nat) | Fail | Finish

  const INITIAL := State(0, [], None, [], [], 0, [], multiset{})

  predicate Enabled(s: State, a: Action) {
    match a
    case Enqueue => true
    case Swap => s.inFlight.None? && s.buffer != []
    case Commit(n) => s.inFlight.Some? && s.inFlight.value.committed + n <= |s.inFlight.value.events|
    case Fail => s.inFlight.Some?
    case Finish => s.inFlight.Some? && s.inFlight.value.committed == |s.inFlight.value.events|
  }

  function Step(s: State, a: Action): State
    requires Enabled(s, a)
  {
    match a
    case Enqueue =>
      if |s.buffer| >= CAP
      then s.(accepted := s.accepted + 1, buffer := s.buffer[DROP..] + [s.accepted],
              dropped := s.dropped + s.buffer[..DROP], droppedCount := s.droppedCount + DROP)
      else s.(accepted := s.accepted + 1, buffer := s.buffer + [s.accepted])
    case Swap => s.(buffer := [], inFlight := Some(Batch(s.buffer, 0)))
    case Commit(n) =>
      var b := s.inFlight.value;
      s.(inFlight := Some(Batch(b.events, b.committed + n)), table := s.table + b.events[b.committed..b.committed + n])
    case Fail =>
      var b := s.inFlight.value;
      s.(buffer := b.events + s.buffer, inFlight := None, wasted := s.wasted + multiset(b.events[..b.committed]))
    case Finish =>
      s.(inFlight := None, discharged := s.discharged + s.inFlight.value.events)
  }

  // ----- invariants -----

  function Pending(s: State): seq<nat> { if s.inFlight.Some? then s.inFlight.value.events else [] }

  function Written(s: State): seq<nat> {
    if s.inFlight.Some? then s.inFlight.value.events[..s.inFlight.value.committed] else []
  }

  function Unwritten(s: State): seq<nat> {
    if s.inFlight.Some? then s.inFlight.value.events[s.inFlight.value.committed..] else []
  }

  ghost predicate Increasing(xs: seq<nat>, below: nat) {
    && (forall i, j :: 0 <= i < j < |xs| ==> xs[i] < xs[j])
    && (forall i :: 0 <= i < |xs| ==> xs[i] < below)
  }

  /** How many copies of an event there are in a list. */
  function Copies(xs: seq<nat>, event: nat): nat { multiset(xs)[event] }

  function Places(s: State, event: nat): nat {
    Copies(s.buffer, event) + Copies(Pending(s), event) + Copies(s.discharged, event) + Copies(s.dropped, event)
  }

  ghost predicate Inv(s: State) {
    && Conserved(s)
    && Increasing(Pending(s) + s.buffer, s.accepted)
    && Tabled(s)
    && (s.wasted == multiset{} ==> Increasing(s.table + Unwritten(s) + s.buffer, s.accepted))
  }

  /** Each accepted event is in exactly one place, and the counts add up. */
  ghost predicate Conserved(s: State) {
    && (forall event: nat :: Places(s, event) == if event < s.accepted then 1 else 0)
    && s.accepted == |s.buffer| + |Pending(s)| + |s.discharged| + |s.dropped|
    && |s.dropped| == s.droppedCount
  }

  /** The table holds each discharged event once, the written part of the batch once, and what failed flushes left. */
  ghost predicate Tabled(s: State) {
    multiset(s.table) == multiset(s.discharged) + multiset(Written(s)) + s.wasted
  }

  lemma SplitCounts(xs: seq<nat>, k: nat)
    requires k <= |xs|
    ensures multiset(xs[..k]) + multiset(xs[k..]) == multiset(xs)
  {
    assert xs == xs[..k] + xs[k..];
  }

  lemma IncreasingAfterEnqueue(x: seq<nat>, y: seq<nat>, d: nat, n: nat)
    requires Increasing(x + y, n) && d <= |y|
    ensures Increasing(x + (y[d..] + [n]), n + 1)
  {
    var old', new' := x + y, x + (y[d..] + [n]);
    assert forall i :: 0 <= i < |x| ==> new'[i] == old'[i];
    assert forall i :: |x| <= i < |new'| - 1 ==> new'[i] == old'[i + d];
  }

  lemma EnqueueInv(s: State)
    requires Inv(s)
    ensures Inv(Step(s, Enqueue))
  {
    var d := if |s.buffer| >= CAP then DROP else 0;
    assert Step(s, Enqueue).buffer == s.buffer[d..] + [s.accepted];
    IncreasingAfterEnqueue(Pending(s), s.buffer, d, s.accepted);
    if s.wasted == multiset{} {
      IncreasingAfterEnqueue(s.table + Unwritten(s), s.buffer, d, s.accepted);
    }
    EnqueueConserves(s);
  }

  lemma CopiesAppend(x: seq<nat>, y: seq<nat>, event: nat)
    ensures Copies(x + y, event) == Copies(x, event) + Copies(y, event)
  {
  }

  lemma EnqueueConserves(s: State)
    requires Conserved(s)
    ensures Conserved(Step(s, Enqueue))
  {
    forall event: nat ensures Places(Step(s, Enqueue), event) == if event < s.accepted + 1 then 1 else 0 {
      EnqueuePlaces(s, event);
      assert Places(s, event) == if event < s.accepted then 1 else 0;
    }
  }

  lemma EnqueuePlaces(s: State, event: nat)
    ensures Places(Step(s, Enqueue), event) == Places(s, event) + if event == s.accepted then 1 else 0
  {
    var s' := Step(s, Enqueue);
    var d := if |s.buffer| >= CAP then DROP else 0;
    var cut, kept := s.buffer[..d], s.buffer[d..];
    assert s.buffer == cut + kept && s'.buffer == kept + [s.accepted] && s'.dropped == s.dropped + cut;
    CopiesAppend(cut, kept, event);
    CopiesAppend(kept, [s.accepted], event);
    CopiesAppend(s.dropped, cut, event);
  }

  lemma SwapInv(s: State)
    requires Inv(s) && Enabled(s, Swap)
    ensures Inv(Step(s, Swap))
  {
    var s' := Step(s, Swap);
    assert Pending(s') + s'.buffer == Pending(s) + s.buffer;
    assert s'.table + Unwritten(s') + s'.buffer == s.table + Unwritten(s) + s.buffer;
    assert Written(s') == [];
    assert forall event: nat :: Places(s', event) == Places(s, event);
  }

  lemma CommitInv(s: State, n: nat)
    requires Inv(s) && Enabled(s, Commit(n))
    ensures Inv(Step(s, Commit(n)))
  {
    var s' := Step(s, Commit(n));
    var b := s.inFlight.value;
    var chunk := b.events[b.committed..b.committed + n];
    assert Written(s') == Written(s) + chunk;
    assert multiset(s'.table) == multiset(s.table) + multiset(chunk);
    assert Unwritten(s) == chunk + Unwritten(s');
    assert s'.table + Unwritten(s') + s'.buffer == s.table + Unwritten(s) + s.buffer;
    assert forall event: nat :: Places(s', event) == Places(s, event);
  }

  lemma FailInv(s: State)
    requires Inv(s) && Enabled(s, Fail)
    ensures Inv(Step(s, Fail))
  {
    var s' := Step(s, Fail);
    assert Pending(s') + s'.buffer == Pending(s) + s.buffer;
    assert Written(s') == [] && Unwritten(s') == [];
    forall event: nat ensures Places(s', event) == Places(s, event) {
      CopiesAppend(Pending(s), s.buffer, event);
    }
    assert s'.wasted == multiset(Written(s)) + s.wasted;
    if s'.wasted == multiset{} {
      NothingWritten(s);
      assert s'.table + Unwritten(s') + s'.buffer == s.table + Unwritten(s) + s.buffer;
    }
  }

  lemma NothingWritten(s: State)
    requires Inv(s) && multiset(Written(s)) + s.wasted == multiset{}
    ensures s.wasted == multiset{} && Unwritten(s) == Pending(s)
  {
    assert |multiset(Written(s)) + s.wasted| == |Written(s)| + |s.wasted|;
    assert Unwritten(s) + [] == Unwritten(s);
  }

  lemma FinishInv(s: State)
    requires Inv(s) && Enabled(s, Finish)
    ensures Inv(Step(s, Finish))
  {
    var s' := Step(s, Finish);
    assert Written(s) == Pending(s) && Unwritten(s) == [];
    assert s'.table + Unwritten(s') + s'.buffer == s.table + Unwritten(s) + s.buffer;
    assert Increasing(s'.buffer, s.accepted) by {
      assert forall i :: 0 <= i < |s.buffer| ==> s.buffer[i] == (Pending(s) + s.buffer)[|Pending(s)| + i];
    }
    assert Pending(s') + s'.buffer == s'.buffer;
    forall event: nat ensures Places(s', event) == Places(s, event) {
      CopiesAppend(s.discharged, Pending(s), event);
    }
  }

  lemma StepInv(s: State, a: Action)
    requires Inv(s) && Enabled(s, a)
    ensures Inv(Step(s, a))
  {
    match a
    case Enqueue => EnqueueInv(s);
    case Swap => SwapInv(s);
    case Commit(n) => CommitInv(s, n);
    case Fail => FailInv(s);
    case Finish => FinishInv(s);
  }

  /** The state after a run of actions; an action that is not enabled is not taken. */
  function Run(s: State, actions: seq<Action>): State
    decreases |actions|
  {
    if actions == [] then s
    else
      var t, a := Run(s, actions[..|actions| - 1]), actions[|actions| - 1];
      if Enabled(t, a) then Step(t, a) else t
  }

  lemma {:induction false} RunSnoc(s: State, actions: seq<Action>, a: Action)
    ensures var t := Run(s, actions);
            Run(s, actions + [a]) == if Enabled(t, a) then Step(t, a) else t
  {
    assert (actions + [a])[..|actions|] == actions;
  }

  lemma {:induction false} RunInv(s: State, actions: seq<Action>)
    requires Inv(s)
    ensures Inv(Run(s, actions))
    decreases |actions|
  {
    if actions != [] {
      var front, a := actions[..|actions| - 1], actions[|actions| - 1];
      RunInv(s, front);
      if Enabled(Run(s, front), a) {
        StepInv(Run(s, front), a);
      }
    }
  }

  // ----- main results, for every run -----

  function Sink(actions: seq<Action>): State { Run(INITIAL, actions) }

  lemma SinkInv(actions: seq<Action>)
    ensures Inv(Sink(actions))
  {
    assert Inv(INITIAL);
    RunInv(INITIAL, actions);
  }

  ghost predicate Reachable(s: State) { exists actions :: s == Sink(actions) }

  lemma ReachableStep(s: State, a: Action)
    requires Reachable(s) && Enabled(s, a)
    ensures Reachable(Step(s, a))
  {
    var actions :| s == Sink(actions);
    RunSnoc(INITIAL, actions, a);
    assert Step(s, a) == Sink(actions + [a]);
  }

  /** Conservation: every accepted event is in exactly one of the buffer, the batch, the discharged and the dropped;
      and the counts add up, the dropped ones being those `_dropped` counts. */
  lemma Conservation(actions: seq<Action>, event: nat)
    ensures var s := Sink(actions);
            && Copies(s.buffer, event) + Copies(Pending(s), event) + Copies(s.discharged, event) + Copies(s.dropped, event)
               == (if event < s.accepted then 1 else 0)
            && s.accepted == |s.buffer| + |Pending(s)| + |s.discharged| + s.droppedCount
  {
    SinkInv(actions);
    assert Places(Sink(actions), event) == if event < Sink(actions).accepted then 1 else 0;
  }

  /** Delivery: a discharged event is in the table, a dropped or buffered one only if a failed flush had written it;
      and no row repeats unless a flush failed after committing it. */
  lemma Delivery(actions: seq<Action>, event: nat)
    ensures var s := Sink(actions);
            && Copies(s.table, event) == Copies(s.discharged, event) + Copies(Written(s), event) + s.wasted[event]
            && (event in s.discharged ==> event in s.table)
            && (Copies(s.table, event) >= 2 ==> s.wasted[event] >= 1)
  {
    var s := Sink(actions);
    SinkInv(actions);
    var rows := multiset(s.discharged) + multiset(Written(s)) + s.wasted;
    assert multiset(s.table) == rows;
    Conservation(actions, event);
    if s.inFlight.Some? {
      SplitCounts(s.inFlight.value.events, s.inFlight.value.committed);
    }
    assert Copies(Written(s), event) <= Copies(Pending(s), event);
    assert event in s.discharged ==> multiset(s.discharged)[event] >= 1;
  }

  /** Order: the batch followed by the buffer is always in acceptance order, through overflow and requeue. */
  lemma OrderKept(actions: seq<Action>)
    ensures Increasing(Pending(Sink(actions)) + Sink(actions).buffer, Sink(actions).accepted)
  {
    SinkInv(actions);
  }

  /** While no failed flush has left a row behind, the table and then the buffer are, between flushes, exactly the
      accepted events that were not dropped, in acceptance order and each once. */
  lemma TableInOrder(actions: seq<Action>, event: nat)
    requires Sink(actions).wasted == multiset{} && Sink(actions).inFlight.None?
    ensures var s := Sink(actions);
            && Increasing(s.table + s.buffer, s.accepted)
            && Copies(s.table + s.buffer, event)
               == (if event < s.accepted && event !in s.dropped then 1 else 0)
  {
    var s := Sink(actions);
    SinkInv(actions);
    assert s.table + Unwritten(s) + s.buffer == s.table + s.buffer;
    Conservation(actions, event);
    Delivery(actions, event);
    CopiesAppend(s.table, s.buffer, event);
    assert event in s.dropped <==> Copies(s.dropped, event) >= 1;
  }

  /** An overflow removes exactly the 5,000 events it counts: the oldest of the buffer, whether or not a batch of still
      older ones is being written. */
  lemma OverflowDropsOldest(actions: seq<Action>, lost: nat, kept: nat)
    requires |Sink(actions).buffer| >= 50_000
    ensures var s := Sink(actions);
            var t := Step(s, Enqueue);
            && t.droppedCount == s.droppedCount + 5_000 && |t.dropped| == |s.dropped| + 5_000
            && |t.buffer| == |s.buffer| - 5_000 + 1 && Pending(t) == Pending(s)
            && (lost in t.dropped && lost !in s.dropped ==>
                  && lost in s.buffer && lost !in t.buffer
                  && (kept in t.buffer ==> lost < kept)
                  && (kept in Pending(s) ==> kept < lost))
  {
    var s := Sink(actions);
    var t := Step(s, Enqueue);
    SinkInv(actions);
    if lost in t.dropped && lost !in s.dropped {
      var i :| 0 <= i < DROP && s.buffer[i] == lost;
      var all, p := Pending(s) + s.buffer, |Pending(s)|;
      assert all[p + i] == lost;
      forall k | 0 <= k < |t.buffer| ensures lost < t.buffer[k] {
        if k < |t.buffer| - 1 {
          assert t.buffer[k] == s.buffer[k + DROP] == all[p + k + DROP];
        }
      }
      forall k | 0 <= k < p ensures Pending(s)[k] < lost {
        assert all[k] == Pending(s)[k];
      }
    }
  }

  // ----- buffer bound -----

  predicate NoFailure(actions: seq<Action>) { forall i :: 0 <= i < |actions| ==> !actions[i].Fail? }

  function Enqueues(actions: seq<Action>): nat {
    if actions == [] then 0
    else Enqueues(actions[..|actions| - 1]) + if actions[|actions| - 1].Enqueue? then 1 else 0
  }

  /** How far `n` is over the cap, in overflows: each removes 5,000 events and lets one in. */
  function Overflows(n: nat): (k: nat)
    ensures n <= 50_000 ==> k == 0
    ensures n > 50_000 ==> 4_999 * k - 4_999 < n - 50_000 <= 4_999 * k
  {
    if n <= 50_000 then 0 else (n - 50_000 + 4_998) / 4_999
  }

  lemma OverflowsStep(n: nat)
    requires n >= CAP
    ensures Overflows(n - DROP + 1) == if n > CAP then Overflows(n) - 1 else 0
  {
  }

  lemma StepLength(s: State, a: Action)
    requires Enabled(s, a)
    ensures var n, n' := |s.buffer|, |Step(s, a).buffer|;
            match a
            case Enqueue => n' == if n >= CAP then n - DROP + 1 else n + 1
            case Swap => n' == 0
            case Fail => true
            case _ => n' == n
  {
  }

  /** From any state, without another requeue, each enqueue takes one overflow off the excess until none is left. */
  lemma {:induction false} ExcessDrains(s: State, actions: seq<Action>)
    requires NoFailure(actions)
    ensures var k, n := Overflows(|s.buffer|), Enqueues(actions);
            Overflows(|Run(s, actions).buffer|) <= if k > n then k - n else 0
    decreases |actions|
  {
    if actions != [] {
      var front, a := actions[..|actions| - 1], actions[|actions| - 1];
      ExcessDrains(s, front);
      assert actions == front + [a];
      RunSnoc(s, front, a);
      var t := Run(s, front);
      if Enabled(t, a) {
        StepLength(t, a);
      }
      if a.Enqueue? && |t.buffer| >= CAP {
        OverflowsStep(|t.buffer|);
      }
    }
  }

  lemma WithinCap(n: nat)
    requires Overflows(n) == 0
    ensures n <= CAP
  {
  }

  /** A buffer left over the cap by a requeue is back within it after enough enqueues and stays there ... */
  lemma {:induction false} Recovers(s: State, actions: seq<Action>)
    requires NoFailure(actions) && Enqueues(actions) >= Overflows(|s.buffer|)
    ensures |Run(s, actions).buffer| <= CAP
  {
    ExcessDrains(s, actions);
    WithinCap(|Run(s, actions).buffer|);
  }

  function Repeat(n: nat): seq<Action> { if n == 0 then [] else Repeat(n - 1) + [Enqueue] }

  lemma {:induction false} LengthAfter(s: State, k: nat)
    requires |s.buffer| > CAP && k <= Overflows(|s.buffer|)
    ensures |Run(s, Repeat(k)).buffer| == |s.buffer| - 4_999 * k
  {
    if k > 0 {
      LengthAfter(s, k - 1);
      RunSnoc(s, Repeat(k - 1), Enqueue);
      StepLength(Run(s, Repeat(k - 1)), Enqueue);
    }
  }

  /** ... and, with no flush to empty it, not before: exactly ceil((n - 50000) / 4999) enqueues are needed. */
  lemma {:induction false} RecoversExactly(s: State, k: nat)
    requires |s.buffer| > CAP && k <= Overflows(|s.buffer|)
    ensures |Run(s, Repeat(k)).buffer| <= CAP <==> k == Overflows(|s.buffer|)
  {
    LengthAfter(s, k);
  }

  /** Without a requeue the buffer never exceeds the cap. */
  lemma BufferBounded(actions: seq<Action>)
    requires NoFailure(actions)
    ensures |Sink(actions).buffer| <= 50_000
  {
    Recovers(INITIAL, actions);
  }

  // ----- the sink itself -----

  /** The buffer `n` enqueues leave, from an empty one, when the first of them accepts event `from`. */
  function Fresh(from: nat, n: nat): seq<nat> {
    if n == 0 then []
    else
      var b := Fresh(from, n - 1);
      (if |b| >= CAP then b[DROP..] else b) + [from + n - 1]
  }

  /** How many events other tasks enqueue during the first `awaits` awaits of a flush. */
  function Arrived(arrivals: seq<nat>, awaits: nat): nat {
    if awaits == 0 then 0 else Arrived(arrivals, awaits - 1) + During(arrivals, awaits - 1)
  }

  function During(arrivals: seq<nat>, k: nat): nat { if k < |arrivals| then arrivals[k] else 0 }

  function Min(a: nat, b: nat): nat { if a < b then a else b }

  /** How many chunks of `size` rows `rows` rows take. */
  function Chunks(rows: nat, size: nat): nat
    requires size >= 1
  {
    if rows == 0 then 0 else if rows <= size then 1 else 1 + Chunks(rows - size, size)
  }

  /** Where the k-th chunk starts. */
  function Offset(k: nat, size: nat): nat { if k == 0 then 0 else Offset(k - 1, size) + size }

  /** How many rows are left from position `start`. */
  function Left(rows: nat, start: nat): nat { if start < rows then rows - start else 0 }

  /** The awaits up to number `k` are over, and the last one raised or none did. */
  ghost predicate Stopped(failAt: Option<nat>, k: nat, raised: bool) {
    && (raised <==> failAt.Some? && failAt.value <= k)
    && (raised ==> failAt == Some(k))
  }

  /** Chunk `k` starts here, and with `k` chunks written the rest of them are left. */
  ghost predicate ChunkStart(rows: nat, size: nat, k: nat, start: nat)
    requires size >= 1
  {
    start == Offset(k, size) && k + Chunks(Left(rows, start), size) == Chunks(rows, size)
  }

  lemma {:induction false} NextChunk(rows: nat, size: nat, k: nat, start: nat)
    requires size >= 1 && start < rows && ChunkStart(rows, size, k, start)
    ensures ChunkStart(rows, size, k + 1, start + size) && k + 1 <= Chunks(rows, size)
    ensures WrittenBefore(k + 1, false, rows, size) == start
    ensures WrittenBefore(k + 1, true, rows, size) == Min(start + size, rows)
  {
    var left := Left(rows, start);
    assert Offset(k + 1, size) == Offset(k, size) + size;
    assert Chunks(left, size) == if left <= size then 1 else 1 + Chunks(left - size, size);
  }

  /** If the release raises, all rows are written. */
  lemma {:induction false} WrittenAll(rows: nat, size: nat)
    requires size >= 1
    ensures WrittenBefore(Chunks(rows, size) + 1, false, rows, size) == rows
    ensures WrittenBefore(Chunks(rows, size) + 1, true, rows, size) == rows
  {
    ChunksCover(rows, size);
  }

  lemma {:induction false} ChunksCover(rows: nat, size: nat)
    requires size >= 1
    ensures Offset(Chunks(rows, size), size) >= rows
  {
    if rows > size {
      ChunksCover(rows - size, size);
    }
  }

  lemma TakeMore(was: seq<nat>, xs: seq<nat>, start: nat, end: nat)
    requires start <= end <= |xs|
    ensures was + xs[..start] + xs[start..end] == was + xs[..end]
  {
    assert xs[..end] == xs[..start] + xs[start..end];
  }

  /** How many rows are in the table when await `k` raises: an insert may raise before or after its rows commit. */
  function WrittenBefore(k: nat, commits: bool, rows: nat, size: nat): (n: nat)
    ensures n <= rows
  {
    if k == 0 then 0 else Min(Offset(if commits then k else k - 1, size), rows)
  }

  class UsagePersistence {
    var isOpen: bool
    var buf: seq<nat>
    var dropped: nat
    const batchSize: nat
    var accepted: nat
    var table: seq<nat>          // stands for opsrag_usage_events in Postgres
    ghost var state: State

    /** The fields are those of the abstract state, which some run of actions reaches. */
    ghost predicate Valid()
      reads this
    {
      && batchSize >= 1 && Reachable(state)
      && buf == state.buffer && dropped == state.droppedCount && accepted == state.accepted && table == state.table
    }

    constructor (batchSize: nat)
      requires batchSize >= 1
      ensures Valid() && state == INITIAL && !isOpen && this.batchSize == batchSize
    {
      isOpen, buf, dropped, accepted, table := false, [], 0, 0, [];
      this.batchSize := batchSize;
      state := INITIAL;
      assert Sink([]) == INITIAL;
    }

    /** The pool is open and the table exists. */
    method Open()
      modifies this`isOpen
      ensures isOpen && (old(Valid()) ==> Valid())
    {
      isOpen := true;
    }

    /** The abstract state moves by one action. */
    ghost method Act(a: Action)
      requires Reachable(state) && Enabled(state, a)
      modifies this`state
      ensures Reachable(state) && state == Step(old(state), a)
    {
      ReachableStep(state, a);
      state := Step(state, a);
    }

    method Enqueue()
      requires Valid()
      modifies this`buf, this`dropped, this`accepted, this`state
      ensures Valid()
      ensures !isOpen ==> unchanged(this)
      ensures isOpen ==> state == Step(old(state), Action.Enqueue)
    {
      if !isOpen {
        return;
      }
      if |buf| >= CAP {
        buf := buf[DROP..];
        dropped := dropped + DROP;
      }
      buf := buf + [accepted];
      accepted := accepted + 1;
      Act(Action.Enqueue);
    }

    /** Mid-flush: `written` rows of the batch are in the table and others have enqueued during `awaits` awaits. */
    ghost predicate Midway(batch: seq<nat>, arrivals: seq<nat>, from: nat, was: seq<nat>, awaits: nat, written: nat)
      requires written <= |batch|
      reads this
    {
      && Valid() && isOpen
      && accepted == from + Arrived(arrivals, awaits) && buf == Fresh(from, Arrived(arrivals, awaits))
      && table == was + batch[..written] && state.inFlight == Some(Batch(batch, written))
    }

    /** Other tasks enqueue while the flush is at await `k`. */
    method Await(batch: seq<nat>, arrivals: seq<nat>, k: nat, ghost from: nat, ghost was: seq<nat>, ghost written: nat)
      requires written <= |batch| && Midway(batch, arrivals, from, was, k, written)
      modifies this`buf, this`dropped, this`accepted, this`state
      ensures Midway(batch, arrivals, from, was, k + 1, written) && state.discharged == old(state.discharged)
    {
      var n := During(arrivals, k);
      for i := 0 to n
        invariant Valid() && state.inFlight == old(state.inFlight) && state.discharged == old(state.discharged)
        invariant accepted == old(accepted) + i && buf == Fresh(from, Arrived(arrivals, k) + i)
        invariant table == old(table)
      {
        Enqueue();
      }
    }

    /** One insert: rows `start` to `end` of the batch are committed. */
    method Insert(batch: seq<nat>, start: nat, end: nat,
                  ghost arrivals: seq<nat>, ghost from: nat, ghost was: seq<nat>, ghost awaits: nat)
      requires start <= end <= |batch| && Midway(batch, arrivals, from, was, awaits, start)
      modifies this`table, this`state
      ensures Midway(batch, arrivals, from, was, awaits, end) && state.discharged == old(state.discharged)
    {
      TakeMore(was, batch, start, end);
      table := table + batch[start..end];
      Act(Commit(end - start));
    }

    /** One turn of the chunk loop; an insert that raises leaves its rows behind if it `commits` them first. */
    method WriteChunk(batch: seq<nat>, arrivals: seq<nat>, failAt: Option<nat>, commits: bool, start: nat, k: nat,
                      ghost from: nat, ghost was: seq<nat>)
      returns (raised: bool, ghost written: nat)
      requires start < |batch| && Midway(batch, arrivals, from, was, k, start)
      modifies this`buf, this`dropped, this`accepted, this`table, this`state
      ensures raised <==> failAt == Some(k)
      ensures written == if raised && !commits then start else Min(start + batchSize, |batch|)
      ensures Midway(batch, arrivals, from, was, k + 1, written) && state.discharged == old(state.discharged)
    {
      Await(batch, arrivals, k, from, was, start);
      raised, written := failAt == Some(k), start;
      if !raised || commits {
        var end := Min(start + batchSize, |batch|);
        Insert(batch, start, end, arrivals, from, was, k + 1);
        written := end;
      }
    }

    /** The chunk loop: it ends with all chunks written, or at an await that raises. */
    method WriteChunks(batch: seq<nat>, arrivals: seq<nat>, failAt: Option<nat>, commits: bool,
                       ghost from: nat, ghost was: seq<nat>)
      returns (raised: bool, k: nat, ghost written: nat)
      requires failAt != Some(0) && Midway(batch, arrivals, from, was, 1, 0)
      modifies this`buf, this`dropped, this`accepted, this`table, this`state
      ensures Stopped(failAt, k, raised) && state.discharged == old(state.discharged)
      ensures if raised then 0 < k <= Chunks(|batch|, batchSize) else k == Chunks(|batch|, batchSize)
      ensures written == if raised then WrittenBefore(k, commits, |batch|, batchSize) else |batch|
      ensures Midway(batch, arrivals, from, was, k + 1, written)
    {
      var start := 0;
      k, raised, written := 0, false, 0;
      while start < |batch| && !raised
        invariant Stopped(failAt, k, raised) && state.discharged == old(state.discharged)
        invariant if raised then 0 < k <= Chunks(|batch|, batchSize) else ChunkStart(|batch|, batchSize, k, start)
        invariant written == if raised then WrittenBefore(k, commits, |batch|, batchSize) else Min(start, |batch|)
        invariant Midway(batch, arrivals, from, was, k + 1, written)
        decreases |batch| - start, !raised
      {
        NextChunk(|batch|, batchSize, k, start);
        k := k + 1;
        raised, written := WriteChunk(batch, arrivals, failAt, commits, start, k, from, was);
        start := start + batchSize;
      }
    }

    /** The `try` block of a flush: write the batch in chunks until an await raises.  Await 0 is the connection, awaits
        1 to n the inserts of the n chunks, and await n + 1 the release of the connection. */
    method Write(batch: seq<nat>, arrivals: seq<nat>, failAt: Option<nat>, commits: bool)
      returns (raised: bool, ghost awaits: nat, ghost written: nat)
      requires batch != [] && Midway(batch, arrivals, accepted, table, 0, 0)
      modifies this`buf, this`dropped, this`accepted, this`table, this`state
      ensures state.discharged == old(state.discharged)
      ensures raised <==> failAt.Some? && failAt.value <= Chunks(|batch|, batchSize) + 1
      ensures awaits == 1 + if raised then failAt.value else Chunks(|batch|, batchSize) + 1
      ensures written == if raised then WrittenBefore(failAt.value, commits, |batch|, batchSize) else |batch|
      ensures Midway(batch, arrivals, old(accepted), old(table), awaits, written)
    {
      ghost var from, was := accepted, table;
      var k := 0;
      Await(batch, arrivals, 0, from, was, 0);
      raised, written := failAt == Some(0), 0;
      if !raised {
        raised, k, written := WriteChunks(batch, arrivals, failAt, commits, from, was);
        if !raised {
          WrittenAll(|batch|, batchSize);
          Await(batch, arrivals, k + 1, from, was, |batch|);
          k := k + 1;
          raised := failAt == Some(k);
        }
      }
      awaits := k + 1;
    }

    /** One flush, during whose k-th await others enqueue `arrivals[k]` events and await `failAt`, if any, raises; if it
        is an insert, `commits` says whether its rows are in the table all the same.

        A flush that raises leaves its batch in front of the newer events, and the chunks committed by then in the
        table.  One that does not leaves the whole batch in the table, in order, and only newer events behind. */
    method FlushOnce(arrivals: seq<nat>, failAt: Option<nat>, commits: bool) returns (raised: bool)
      requires Valid() && state.inFlight.None?
      modifies this
      ensures Valid() && state.inFlight.None? && isOpen == old(isOpen)
      ensures !isOpen || old(buf) == [] ==> !raised && state == old(state)
      ensures isOpen && old(buf) != [] ==>
                var last := Chunks(|old(buf)|, batchSize) + 1;
                && (raised <==> failAt.Some? && failAt.value <= last)
                && var newer := Arrived(arrivals, if raised then failAt.value + 1 else last + 1);
                   var written := if raised then WrittenBefore(failAt.value, commits, |old(buf)|, batchSize) else |old(buf)|;
                   && accepted == old(accepted) + newer
                   && buf == (if raised then old(buf) else []) + Fresh(old(accepted), newer)
                   && table == old(table) + old(buf)[..written]
                   && state.discharged == old(state.discharged) + if raised then [] else old(buf)
    {
      if !isOpen || buf == [] {
        return false;
      }
      var batch := buf;
      buf := [];
      Act(Swap);
      ghost var awaits, written;
      raised, awaits, written := Write(batch, arrivals, failAt, commits);
      if raised {
        buf := batch + buf;
        Act(Fail);
      } else {
        Act(Finish);
      }
    }

    /** Shutdown: a last flush, then the pool closes.  What that flush could not write stays in memory and is lost. */
    method Close(arrivals: seq<nat>, failAt: Option<nat>, commits: bool)
      requires Valid() && state.inFlight.None?
      modifies this
      ensures Valid() && !isOpen
      ensures !old(isOpen) || old(buf) == [] ==> state == old(state)
      ensures old(isOpen) && old(buf) != [] ==>
                var last := Chunks(|old(buf)|, batchSize) + 1;
                if failAt.Some? && failAt.value <= last then
                  && table == old(table) + old(buf)[..WrittenBefore(failAt.value, commits, |old(buf)|, batchSize)]
                  && buf == old(buf) + Fresh(old(accepted), Arrived(arrivals, failAt.value + 1))
                else
                  && table == old(table) + old(buf)
                  && buf == Fresh(old(accepted), Arrived(arrivals, last + 1))
    {
      var raised := FlushOnce(arrivals, failAt, commits);
      assert old(buf)[..|old(buf)|] == old(buf);
      isOpen := false;
    }
  }
}
