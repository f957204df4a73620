/** The indexing progress tracker (opsrag/indexing_tracker.py, lines 14-347): one entry per source, and a bounded history
    of runs whose records are shared between the ring and the map of current runs and updated in place.

    Clock readings are parameters.  `State` is what the tracker means: every run ever created, in order. */
module IndexingTracker {

  import opened Options

  datatype RepoStatus = Queued | Listing | Indexing | Done | Failed

  datatype RepoProgress = RepoProgress(
    repo: string, branch: string, sourceType: string, status: RepoStatus := Queued,
    totalFiles: int := 0, indexedFiles: int := 0, skippedFiles: int := 0, totalChunks: int := 0, entities: int := 0,
    error: Option<string> := None, startedAt: real := 0.0, finishedAt: real := 0.0, displayName: Option<string> := None)

  datatype JobStatus = Running | Success | JobFailed

  /** What never changes in a job record ... */
  datatype Opening = Opening(id: nat, repo: string, branch: string, sourceType: string, startedAt: real, restored: bool)

  /** ... and the rest. */
  datatype Outcome = Outcome(status: JobStatus, finishedAt: real, chunks: int, files: int, error: Option<string>,
                             displayName: Option<string>)

  datatype Job = Job(opening: Opening, outcome: Outcome)

  /** `current` holds positions in `runs`. */
  datatype State = State(repos: map<string, RepoProgress>, runs: seq<Job>, current: map<string, nat>)

  const EMPTY := State(map[], [], map[])

  function Key(repo: string, branch: string): string { repo + "@" + branch }

  function Opened(runs: seq<Job>, rp: RepoProgress, startedAt: real): Job {
    Job(Opening(|runs| + 1, rp.repo, rp.branch, rp.sourceType, startedAt, false),
        Outcome(Running, 0.0, 0, 0, None, rp.displayName))
  }

  function Closing(rp: RepoProgress, status: JobStatus, error: Option<string>, now: real): Outcome {
    Outcome(status, now, rp.totalChunks, rp.indexedFiles, error, rp.displayName)
  }

  /** Close the current run of a source, or one made up for the purpose. */
  function Finalized(s: State, key: string, rp: RepoProgress, status: JobStatus, error: Option<string>, now: real): State {
    if key in s.current && s.current[key] < |s.runs| then
      var i := s.current[key];
      s.(runs := s.runs[i := s.runs[i].(outcome := Closing(rp, status, error, now))], current := s.current - {key})
    else
      var job := Opened(s.runs, rp, if rp.startedAt != 0.0 then rp.startedAt else now);
      s.(runs := s.runs + [job.(outcome := Closing(rp, status, error, now))], current := s.current - {key})
  }

  datatype Op = QueueRepo(repo: string, branch: string, sourceType: string)
              | EnsureQueued(repo: string, branch: string, sourceType: string)
              | StartListing(repo: string, branch: string, now: real)
              | StartIndexing(repo: string, branch: string, totalFiles: int)
              | FileIndexed(repo: string, branch: string, chunks: int, entities: int)
              | FileSkipped(repo: string, branch: string)
              | RepoDone(repo: string, branch: string, now: real)
              | RepoFailed(repo: string, branch: string, message: string, now: real)
              | BackfillDone(repo: string, branch: string, sourceType: string, totalChunks: int, totalFiles: int, now: real)
              | SetDisplayName(repo: string, branch: string, name: string)

  function Restored(s: State, op: Op): State
    requires op.BackfillDone?
  {
    var key := Key(op.repo, op.branch);
    s.(repos := s.repos[key := RepoProgress(op.repo, op.branch, op.sourceType, Done, op.totalFiles, op.totalFiles, 0,
                                            op.totalChunks, 0, None, op.now, op.now)],
       runs := s.runs + [Job(Opening(|s.runs| + 1, op.repo, op.branch, op.sourceType, op.now, true),
                             Outcome(Success, op.now, op.totalChunks, op.totalFiles, None, None))])
  }

  function Listed(s: State, key: string, rp: RepoProgress): State {
    State(s.repos[key := rp], s.runs + [Opened(s.runs, rp, rp.startedAt)], s.current[key := |s.runs|])
  }

  predicate Finishes(op: Op) { op.RepoDone? || op.RepoFailed? }

  /** What an operation makes of its source's entry. */
  function Progressed(rp: RepoProgress, op: Op): RepoProgress {
    match op
    case StartListing(_, _, now) => rp.(status := Listing, startedAt := now)
    case StartIndexing(_, _, total) => rp.(status := Indexing, totalFiles := total)
    case FileIndexed(_, _, chunks, entities) =>
      rp.(indexedFiles := rp.indexedFiles + 1, totalChunks := rp.totalChunks + chunks, entities := rp.entities + entities)
    case FileSkipped(_, _) => rp.(skippedFiles := rp.skippedFiles + 1)
    case RepoDone(_, _, now) => rp.(status := Done, finishedAt := now)
    case RepoFailed(_, _, message, now) => rp.(status := Failed, error := Some(message), finishedAt := now)
    case SetDisplayName(_, _, name) => rp.(displayName := Some(name))
    case _ => rp
  }

  function Verdict(op: Op): JobStatus { if op.RepoFailed? then JobFailed else Success }

  function Message(op: Op): Option<string> { if op.RepoFailed? then Some(op.message) else None }

  /** An operation on a source that was never queued does nothing, but for queueing and backfill. */
  function Step(s: State, op: Op): State {
    var key := Key(op.repo, op.branch);
    if op.QueueRepo? || (op.EnsureQueued? && key !in s.repos) then
      s.(repos := s.repos[key := RepoProgress(op.repo, op.branch, op.sourceType)])
    else if op.BackfillDone? then
      if key in s.repos && !s.repos[key].status.Done? && !s.repos[key].status.Queued? then s else Restored(s, op)
    else if key !in s.repos then s
    else
      var rp := Progressed(s.repos[key], op);
      if op.StartListing? then Listed(s, key, rp)
      else if Finishes(op) then
        Finalized(s.(repos := s.repos[key := rp]), key, rp, Verdict(op), Message(op), op.now)
      else s.(repos := s.repos[key := rp])
  }

  function Run(s: State, ops: seq<Op>): State
    decreases |ops|
  {
    if ops == [] then s else Step(Run(s, ops[..|ops| - 1]), ops[|ops| - 1])
  }

  // ----- invariants -----

  function JobKey(j: Job): string { Key(j.opening.repo, j.opening.branch) }

  /** Entries sit under their own key; the n-th run has id n; the current runs are distinct, running, and of their key. */
  ghost predicate Inv(s: State) { KeysRight(s.repos) && IdsRight(s.runs) && CurrentRight(s) }

  ghost predicate KeysRight(repos: map<string, RepoProgress>) {
    forall key :: key in repos ==> Key(repos[key].repo, repos[key].branch) == key
  }

  ghost predicate IdsRight(runs: seq<Job>) { forall i :: 0 <= i < |runs| ==> runs[i].opening.id == i + 1 }

  ghost predicate CurrentRight(s: State) {
    forall key :: key in s.current ==> RunningOf(s, key, s.current[key])
  }

  /** The i-th run is one of the source's, and shown as running. */
  ghost predicate RunningOf(s: State, key: string, i: nat) {
    i < |s.runs| && s.runs[i].outcome.status.Running? && JobKey(s.runs[i]) == key
  }

  lemma StepKeys(s: State, op: Op)
    requires KeysRight(s.repos)
    ensures KeysRight(Step(s, op).repos)
  {
  }

  lemma StepIds(s: State, op: Op)
    requires IdsRight(s.runs)
    ensures IdsRight(Step(s, op).runs)
  {
  }

  lemma FinalizedCurrent(s: State, key: string, rp: RepoProgress, status: JobStatus, error: Option<string>, now: real)
    requires CurrentRight(s)
    ensures CurrentRight(Finalized(s, key, rp, status, error, now))
  {
    var t := Finalized(s, key, rp, status, error, now);
    assert key in s.current ==> RunningOf(s, key, s.current[key]);
    forall k | k in t.current ensures RunningOf(t, k, t.current[k]) {
      assert RunningOf(s, k, s.current[k]);
    }
  }

  lemma ListedInv(s: State, key: string, rp: RepoProgress)
    requires Inv(s) && Key(rp.repo, rp.branch) == key
    ensures Inv(Listed(s, key, rp))
  {
    var t := State(s.repos[key := rp], s.runs + [Opened(s.runs, rp, rp.startedAt)], s.current);
    OtherwiseCurrent(s, t);
    MakeCurrentInv(t, key, |s.runs|);
  }

  lemma OtherwiseCurrent(s: State, t: State)
    requires CurrentRight(s) && s.runs <= t.runs && t.current == s.current
    ensures CurrentRight(t)
  {
    forall k | k in t.current ensures RunningOf(t, k, t.current[k]) {
      assert RunningOf(s, k, s.current[k]);
    }
  }

  lemma MakeCurrentInv(s: State, key: string, i: nat)
    requires Inv(s) && RunningOf(s, key, i)
    ensures Inv(s.(current := s.current[key := i]))
  {
    var t := s.(current := s.current[key := i]);
    forall k | k in t.current ensures RunningOf(t, k, t.current[k]) {
      assert k in s.current ==> RunningOf(s, k, s.current[k]);
    }
  }

  lemma StepInv(s: State, op: Op)
    requires Inv(s)
    ensures Inv(Step(s, op))
  {
    var t, key := Step(s, op), Key(op.repo, op.branch);
    StepKeys(s, op);
    StepIds(s, op);
    if Finishes(op) && key in s.repos {
      FinalizedCurrent(s.(repos := t.repos), key, t.repos[key], Verdict(op), Message(op), op.now);
    } else if op.StartListing? && key in s.repos {
      ListedInv(s, key, t.repos[key]);
    } else {
      OtherwiseCurrent(s, t);
    }
  }

  lemma {:induction false} RunInv(s: State, ops: seq<Op>)
    requires Inv(s)
    ensures Inv(Run(s, ops))
    decreases |ops|
  {
    if ops != [] {
      RunInv(s, ops[..|ops| - 1]);
      StepInv(Run(s, ops[..|ops| - 1]), ops[|ops| - 1]);
    }
  }

  /** In every run the current runs of different sources are different, and each is running. */
  lemma {:induction false} CurrentDistinct(ops: seq<Op>, key: string, other: string)
    requires var s := Run(EMPTY, ops); key in s.current && other in s.current && key != other
    ensures var s := Run(EMPTY, ops);
            && s.current[key] < |s.runs| && s.runs[s.current[key]].outcome.status.Running?
            && s.current[key] != s.current[other]
  {
    RunInv(EMPTY, ops);
    var s := Run(EMPTY, ops);
    assert RunningOf(s, key, s.current[key]) && RunningOf(s, other, s.current[other]);
  }

  // ----- the history of a run -----

  /** The later list has the earlier runs, unchanged but that running ones may have been closed. */
  ghost predicate Later(s: State, t: State) {
    && |s.runs| <= |t.runs|
    && forall i :: 0 <= i < |s.runs| ==>
         && t.runs[i].opening == s.runs[i].opening
         && (!s.runs[i].outcome.status.Running? ==> t.runs[i] == s.runs[i])
  }

  /** In every continuation a run that is over keeps its record: it is finalised at most once and never runs again. */
  lemma {:induction false} FinalisedOnce(s: State, ops: seq<Op>)
    requires Inv(s)
    ensures Later(s, Run(s, ops))
    decreases |ops|
  {
    if ops != [] {
      var front := ops[..|ops| - 1];
      FinalisedOnce(s, front);
      RunInv(s, front);
      StepLater(Run(s, front), ops[|ops| - 1]);
    }
  }

  lemma StepLater(s: State, op: Op)
    requires Inv(s)
    ensures Later(s, Step(s, op))
  {
    var key := Key(op.repo, op.branch);
    assert key in s.current ==> RunningOf(s, key, s.current[key]);
  }

  ghost predicate Current(s: State, i: nat) {
    i < |s.runs| && JobKey(s.runs[i]) in s.current && s.current[JobKey(s.runs[i])] == i
  }

  /** The operation opens a run on a source whose current run is the i-th. */
  predicate Supersedes(s: State, op: Op, i: nat) {
    && op.StartListing?
    && var key := Key(op.repo, op.branch);
       key in s.repos && key in s.current && s.current[key] == i
  }

  /** The k-th operation superseded the i-th run. */
  ghost predicate SupersededAt(ops: seq<Op>, k: nat, i: nat) {
    k < |ops| && Supersedes(Run(EMPTY, ops[..k]), ops[k], i)
  }

  /** A run that is shown as running is the current one of its source, or a later start_listing superseded it. */
  lemma {:induction false} RunningIsCurrent(ops: seq<Op>, i: nat) returns (k: nat)
    requires var s := Run(EMPTY, ops); i < |s.runs| && s.runs[i].outcome.status.Running?
    ensures Current(Run(EMPTY, ops), i) || SupersededAt(ops, k, i)
    decreases |ops|
  {
    k := 0;
    if ops != [] {
      var n := |ops| - 1;
      var front, op := ops[..n], ops[n];
      var s := Run(EMPTY, front);
      RunInv(EMPTY, front);
      if i < |s.runs| {
        StepLater(s, op);
        k := RunningIsCurrent(front, i);
        if Current(s, i) {
          k := n;
          StillCurrent(s, op, i);
        } else {
          assert front[..k] == ops[..k];
        }
      } else {
        NewIsCurrent(s, op, i);
      }
    }
  }

  lemma NewIsCurrent(s: State, op: Op, i: nat)
    requires Inv(s) && |s.runs| <= i < |Step(s, op).runs| && Step(s, op).runs[i].outcome.status.Running?
    ensures Current(Step(s, op), i)
  {
  }

  lemma StillCurrent(s: State, op: Op, i: nat)
    requires Inv(s) && Current(s, i) && i < |Step(s, op).runs| && Step(s, op).runs[i].outcome.status.Running?
    ensures Current(Step(s, op), i) || Supersedes(s, op, i)
  {
    StepLater(s, op);
  }

  /** A superseded run is shown as running for ever: no operation can close it. */
  lemma {:induction false} OrphanedForEver(s: State, ops: seq<Op>, i: nat)
    requires Inv(s) && i < |s.runs| && s.runs[i].outcome.status.Running? && !Current(s, i)
    ensures i < |Run(s, ops).runs| && Run(s, ops).runs[i] == s.runs[i] && !Current(Run(s, ops), i)
    decreases |ops|
  {
    if ops != [] {
      var front, op := ops[..|ops| - 1], ops[|ops| - 1];
      OrphanedForEver(s, front, i);
      RunInv(s, front);
      StepLater(Run(s, front), op);
      OrphanStep(Run(s, front), op, i);
    }
  }

  lemma OrphanStep(s: State, op: Op, i: nat)
    requires Inv(s) && i < |s.runs| && !Current(s, i)
    ensures i < |Step(s, op).runs| && Step(s, op).runs[i] == s.runs[i] && !Current(Step(s, op), i)
  {
    StepLater(s, op);
    var key := Key(op.repo, op.branch);
    assert key in s.current ==> RunningOf(s, key, s.current[key]);
  }

  lemma SupersededIsOrphan(s: State, op: Op, i: nat)
    requires Inv(s) && Supersedes(s, op, i)
    ensures var t := Step(s, op); i < |t.runs| && t.runs[i].outcome.status.Running? && !Current(t, i)
  {
    assert RunningOf(s, KeyOf(op), i);
  }

  ghost predicate Orphan(s: State, i: nat) {
    i < |s.runs| && s.runs[i].outcome.status.Running? && !Current(s, i)
  }

  lemma {:induction false} OrphanLater(ops: seq<Op>, more: seq<Op>, i: nat)
    requires Orphan(Run(EMPTY, ops), i)
    ensures Orphan(Run(EMPTY, ops + more), i)
  {
    RunInv(EMPTY, ops);
    OrphanedForEver(Run(EMPTY, ops), more, i);
    RunSplit(EMPTY, ops, more);
  }

  lemma {:induction false} SupersededOrphans(ops: seq<Op>, k: nat, i: nat)
    requires SupersededAt(ops, k, i)
    ensures Orphan(Run(EMPTY, ops), i)
  {
    RunInv(EMPTY, ops[..k]);
    SupersededIsOrphan(Run(EMPTY, ops[..k]), ops[k], i);
    RunSnoc(EMPTY, ops[..k], ops[k]);
    OrphanLater(ops[..k] + [ops[k]], ops[k + 1..], i);
    SplitAt(ops, k);
  }

  lemma SplitAt<T>(xs: seq<T>, k: nat)
    requires k < |xs|
    ensures xs[..k] + [xs[k]] + xs[k + 1..] == xs
  {
  }

  /** In every run the runs that are shown as running and are not current are exactly those that a later start_listing
      superseded, and each of them stays so for ever. */
  lemma {:induction false} OrphansAreSuperseded(ops: seq<Op>, i: nat)
    ensures Orphan(Run(EMPTY, ops), i) <==> exists k :: SupersededAt(ops, k, i)
    ensures Orphan(Run(EMPTY, ops), i) ==> forall more :: Orphan(Run(EMPTY, ops + more), i)
  {
    if Orphan(Run(EMPTY, ops), i) {
      var k := RunningIsCurrent(ops, i);
      forall more ensures Orphan(Run(EMPTY, ops + more), i) {
        OrphanLater(ops, more, i);
      }
    } else {
      forall k ensures !SupersededAt(ops, k, i) {
        if SupersededAt(ops, k, i) {
          SupersededOrphans(ops, k, i);
        }
      }
    }
  }

  // ----- counters -----

  function KeyOf(op: Op): string { Key(op.repo, op.branch) }

  /** How many files an operation adds to a source's count, and how many chunks. */
  function FilesOf(op: Op, key: string): int { if op.FileIndexed? && KeyOf(op) == key then 1 else 0 }

  function ChunksOf(op: Op, key: string): int { if op.FileIndexed? && KeyOf(op) == key then op.chunks else 0 }

  function Files(ops: seq<Op>, key: string): int {
    if ops == [] then 0 else Files(ops[..|ops| - 1], key) + FilesOf(ops[|ops| - 1], key)
  }

  function Chunks(ops: seq<Op>, key: string): int {
    if ops == [] then 0 else Chunks(ops[..|ops| - 1], key) + ChunksOf(ops[|ops| - 1], key)
  }

  /** The operation starts the source's entry afresh. */
  predicate Resets(op: Op, key: string) { (op.QueueRepo? || op.BackfillDone?) && KeyOf(op) == key }

  predicate NoReset(ops: seq<Op>, key: string) { forall i :: 0 <= i < |ops| ==> !Resets(ops[i], key) }

  lemma CountStep(s: State, op: Op, key: string)
    requires key in s.repos && !Resets(op, key)
    ensures var t := Step(s, op);
            && key in t.repos
            && t.repos[key].indexedFiles == s.repos[key].indexedFiles + FilesOf(op, key)
            && t.repos[key].totalChunks == s.repos[key].totalChunks + ChunksOf(op, key)
  {
  }

  /** Until the source is queued again or backfilled, its counters only add up, over any number of listings and
      finished runs. */
  lemma {:induction false} CountersAddUp(s: State, ops: seq<Op>, key: string)
    requires key in s.repos && NoReset(ops, key)
    ensures var t := Run(s, ops);
            && key in t.repos
            && t.repos[key].indexedFiles == s.repos[key].indexedFiles + Files(ops, key)
            && t.repos[key].totalChunks == s.repos[key].totalChunks + Chunks(ops, key)
    decreases |ops|
  {
    if ops != [] {
      var front, op := ops[..|ops| - 1], ops[|ops| - 1];
      assert forall i :: 0 <= i < |front| ==> front[i] == ops[i];
      CountersAddUp(s, front, key);
      assert op == ops[|front|];
      CountStep(Run(s, front), op, key);
    }
  }

  lemma {:induction false} RunSnoc(s: State, ops: seq<Op>, op: Op)
    ensures Run(s, ops + [op]) == Step(Run(s, ops), op)
  {
    assert (ops + [op])[..|ops|] == ops;
  }

  lemma {:induction false} RunSplit(s: State, a: seq<Op>, b: seq<Op>)
    ensures Run(s, a + b) == Run(Run(s, a), b)
    decreases |b|
  {
    if b == [] {
      assert a + b == a;
    } else {
      var front, op := b[..|b| - 1], b[|b| - 1];
      RunSplit(s, a, front);
      RunSnoc(s, a + front, op);
      RunSnoc(Run(s, a), front, op);
      assert b == front + [op] && a + b == a + front + [op];
    }
  }

  /** So the record that closes a run counts everything since the source was queued, not since the run was opened. */
  lemma {:induction false} ClosedSinceQueued(s: State, queue: Op, ops: seq<Op>, done: Op)
    requires Inv(s) && queue.QueueRepo? && NoReset(ops, KeyOf(queue))
    requires Finishes(done) && KeyOf(done) == KeyOf(queue)
    ensures var before := Run(Step(s, queue), ops);
            var t, key := Step(before, done), KeyOf(queue);
            var i := if key in before.current then before.current[key] else |before.runs|;
            && i < |t.runs| && t.runs[i].outcome.status == Verdict(done)
            && t.runs[i].outcome.files == Files(ops, key) && t.runs[i].outcome.chunks == Chunks(ops, key)
            && key !in t.current
  {
    StepInv(s, queue);
    RunInv(Step(s, queue), ops);
    CountersAddUp(Step(s, queue), ops, KeyOf(queue));
    ClosedAsIs(Run(Step(s, queue), ops), done);
  }

  lemma ClosedAsIs(s: State, done: Op)
    requires Inv(s) && Finishes(done) && KeyOf(done) in s.repos
    ensures var t, key := Step(s, done), KeyOf(done);
            var i := if key in s.current then s.current[key] else |s.runs|;
            && i < |t.runs| && key !in t.current && t.runs[i].outcome.status == Verdict(done)
            && t.runs[i].outcome.files == s.repos[key].indexedFiles
            && t.runs[i].outcome.chunks == s.repos[key].totalChunks
  {
    var key := KeyOf(done);
    assert key in s.current ==> RunningOf(s, key, s.current[key]);
  }

  // ----- entries and current runs -----

  predicate Active(s: State, key: string) {
    key in s.repos && (s.repos[key].status.Listing? || s.repos[key].status.Indexing?)
  }

  ghost predicate CurrentActive(s: State) { forall key :: key in s.current ==> Active(s, key) }

  /** No source is queued again while it has a current run. */
  ghost predicate Orderly(ops: seq<Op>) {
    forall k :: 0 <= k < |ops| && ops[k].QueueRepo? ==> KeyOf(ops[k]) !in Run(EMPTY, ops[..k]).current
  }

  /** Then a current run belongs to a source that is being listed or indexed, and no backfill can touch it. */
  lemma {:induction false} CurrentIsActive(ops: seq<Op>)
    requires Orderly(ops)
    ensures CurrentActive(Run(EMPTY, ops))
    decreases |ops|
  {
    if ops != [] {
      var n := |ops| - 1;
      var front, op := ops[..n], ops[n];
      assert forall k :: 0 <= k < n ==> front[k] == ops[k] && front[..k] == ops[..k];
      assert Orderly(front);
      CurrentIsActive(front);
      assert op.QueueRepo? ==> KeyOf(ops[n]) !in Run(EMPTY, ops[..n]).current;
      ActiveStep(Run(EMPTY, front), op);
    }
  }

  ghost predicate AlwaysActive(ops: seq<Op>) {
    forall n :: 0 <= n <= |ops| ==> CurrentActive(Run(EMPTY, ops[..n]))
  }

  lemma OrderlyPrefix(ops: seq<Op>, n: nat)
    requires n <= |ops| && Orderly(ops)
    ensures Orderly(ops[..n])
  {
    var front := ops[..n];
    forall k | 0 <= k < |front| && front[k].QueueRepo? ensures KeyOf(front[k]) !in Run(EMPTY, front[..k]).current {
      assert front[k] == ops[k] && front[..k] == ops[..k];
    }
  }

  lemma RequeueBreaks(ops: seq<Op>, k: nat)
    requires k < |ops| && ops[k].QueueRepo? && KeyOf(ops[k]) in Run(EMPTY, ops[..k]).current
    ensures !AlwaysActive(ops)
  {
    assert ops[..k + 1][..k] == ops[..k];
    assert !Active(Run(EMPTY, ops[..k + 1]), KeyOf(ops[k]));
    assert !CurrentActive(Run(EMPTY, ops[..k + 1]));
  }

  /** Throughout a run every current run belongs to a source that is being listed or indexed exactly if no source is
      queued again while it has one: doing so breaks it at once. */
  lemma ActiveExactly(ops: seq<Op>)
    ensures AlwaysActive(ops) <==> Orderly(ops)
  {
    if Orderly(ops) {
      forall n | 0 <= n <= |ops| ensures CurrentActive(Run(EMPTY, ops[..n])) {
        OrderlyPrefix(ops, n);
        CurrentIsActive(ops[..n]);
      }
    } else {
      var k :| 0 <= k < |ops| && ops[k].QueueRepo? && KeyOf(ops[k]) in Run(EMPTY, ops[..k]).current;
      RequeueBreaks(ops, k);
    }
  }

  lemma ActiveStep(s: State, op: Op)
    requires CurrentActive(s) && (op.QueueRepo? ==> KeyOf(op) !in s.current)
    ensures CurrentActive(Step(s, op))
  {
  }

  // ----- done, yet running -----

  /** The source is shown as done and the i-th run, one of its own, as running. */
  ghost predicate DoneOver(s: State, key: string, i: nat) {
    key in s.repos && s.repos[key].status.Done? && RunningOf(s, key, i)
  }

  /** What leads there: a repo_done while the i-th run of the source has been superseded, or a backfill while the entry
      is queued and the i-th run, current or not, is running. */
  ghost predicate Overlooks(s: State, op: Op, i: nat) {
    && KeyOf(op) in s.repos && RunningOf(s, KeyOf(op), i)
    && ((op.RepoDone? && !Current(s, i)) || (op.BackfillDone? && s.repos[KeyOf(op)].status.Queued?))
  }

  ghost predicate OverlooksAt(ops: seq<Op>, k: nat, i: nat) { k < |ops| && Overlooks(Run(EMPTY, ops[..k]), ops[k], i) }

  /** Only a source with an entry has runs. */
  ghost predicate Owned(s: State) { forall i :: 0 <= i < |s.runs| ==> JobKey(s.runs[i]) in s.repos }

  lemma OwnedStep(s: State, op: Op)
    requires Inv(s) && Owned(s)
    ensures Owned(Step(s, op))
  {
    var t := Step(s, op);
    StepLater(s, op);
    NewHasEntry(s, op);
    forall i | 0 <= i < |t.runs| ensures JobKey(t.runs[i]) in t.repos {
      if i < |s.runs| {
        assert t.runs[i].opening == s.runs[i].opening;
      }
    }
  }

  lemma NewHasEntry(s: State, op: Op)
    requires KeysRight(s.repos)
    ensures var t := Step(s, op);
            && s.repos.Keys <= t.repos.Keys
            && forall i :: |s.runs| <= i < |t.runs| ==> JobKey(t.runs[i]) in t.repos
  {
  }

  lemma {:induction false} OwnedRun(ops: seq<Op>)
    ensures Owned(Run(EMPTY, ops))
    decreases |ops|
  {
    if ops != [] {
      OwnedRun(ops[..|ops| - 1]);
      RunInv(EMPTY, ops[..|ops| - 1]);
      OwnedStep(Run(EMPTY, ops[..|ops| - 1]), ops[|ops| - 1]);
    }
  }

  /** Nothing else leads there ... */
  lemma OnlyOverlooking(s: State, op: Op, key: string, i: nat)
    requires Inv(s) && Owned(s) && DoneOver(Step(s, op), key, i)
    ensures DoneOver(s, key, i) || (key == KeyOf(op) && Overlooks(s, op, i))
  {
    StepLater(s, op);
    if i >= |s.runs| {
      NewIsCurrent(s, op, i);
    }
  }

  /** ... and it always does. */
  lemma OverlookingShows(s: State, op: Op, i: nat)
    requires Inv(s) && Overlooks(s, op, i)
    ensures DoneOver(Step(s, op), KeyOf(op), i)
  {
    if op.RepoDone? {
      OrphanStep(s, op, i);
    }
  }

  /** In some state of the run a source is shown as done over a running run of its own. */
  ghost predicate ShownAt(ops: seq<Op>, n: nat, key: string, i: nat) {
    n <= |ops| && DoneOver(Run(EMPTY, ops[..n]), key, i)
  }

  lemma {:induction false} ShownThroughOverlooking(ops: seq<Op>, n: nat, key: string, i: nat) returns (k: nat)
    requires ShownAt(ops, n, key, i)
    ensures OverlooksAt(ops, k, i)
  {
    var m := n - 1;
    assert ops[..n][..m] == ops[..m];
    var s := Run(EMPTY, ops[..m]);
    RunInv(EMPTY, ops[..m]);
    OwnedRun(ops[..m]);
    OnlyOverlooking(s, ops[m], key, i);
    if DoneOver(s, key, i) {
      k := ShownThroughOverlooking(ops, m, key, i);
    } else {
      k := m;
    }
  }

  lemma OverlookingIsShown(ops: seq<Op>, k: nat, i: nat)
    requires OverlooksAt(ops, k, i)
    ensures ShownAt(ops, k + 1, KeyOf(ops[k]), i)
  {
    RunInv(EMPTY, ops[..k]);
    OverlookingShows(Run(EMPTY, ops[..k]), ops[k], i);
    assert ops[..k + 1][..k] == ops[..k];
  }

  /** A source is at some time shown as done over its i-th run, still shown as running, exactly if a repo_done came when
      that run had been superseded, or a backfill when the source was queued and the run not over. */
  lemma DoneOverRunningExactly(ops: seq<Op>, i: nat)
    ensures (exists n, key :: ShownAt(ops, n, key, i)) <==> exists k :: OverlooksAt(ops, k, i)
  {
    if n: nat, key: string :| ShownAt(ops, n, key, i) {
      var k := ShownThroughOverlooking(ops, n, key, i);
    }
    if k: nat :| OverlooksAt(ops, k, i) {
      OverlookingIsShown(ops, k, i);
    }
  }

  /** For the current run it is the backfill alone. */
  ghost predicate CurrentShownAt(ops: seq<Op>, n: nat, key: string) {
    && n <= |ops|
    && var s := Run(EMPTY, ops[..n]); key in s.current && key in s.repos && s.repos[key].status.Done?
  }

  ghost predicate BackfillsCurrentAt(ops: seq<Op>, k: nat) {
    && k < |ops| && ops[k].BackfillDone?
    && var s, key := Run(EMPTY, ops[..k]), KeyOf(ops[k]);
       key in s.current && key in s.repos && s.repos[key].status.Queued?
  }

  lemma {:induction false} CurrentShownThroughBackfill(ops: seq<Op>, n: nat, key: string) returns (k: nat)
    requires CurrentShownAt(ops, n, key)
    ensures BackfillsCurrentAt(ops, k)
  {
    var m := n - 1;
    assert ops[..n][..m] == ops[..m];
    RunInv(EMPTY, ops[..m]);
    OwnedRun(ops[..m]);
    var s := Run(EMPTY, ops[..m]);
    assert key in s.current ==> RunningOf(s, key, s.current[key]);
    if CurrentShownAt(ops, m, key) {
      k := CurrentShownThroughBackfill(ops, m, key);
    } else {
      k := m;
    }
  }

  lemma DoneOverCurrentExactly(ops: seq<Op>)
    ensures (exists n, key :: CurrentShownAt(ops, n, key)) <==> exists k :: BackfillsCurrentAt(ops, k)
  {
    if n: nat, key: string :| CurrentShownAt(ops, n, key) {
      var k := CurrentShownThroughBackfill(ops, n, key);
    }
    if k: nat :| BackfillsCurrentAt(ops, k) {
      assert ops[..k + 1][..k] == ops[..k];
      assert CurrentShownAt(ops, k + 1, KeyOf(ops[k]));
    }
  }

  /** Both ways are real: a source queued again in mid-run and then backfilled is shown as done over its current run ... */
  lemma DoneYetRunning() returns (ops: seq<Op>)
    ensures var s := Run(EMPTY, ops); "r@b" in s.current && DoneOver(s, "r@b", s.current["r@b"])
  {
    assert Key("r", "b") == "r@b";
    var a := QueueRepo("r", "b", "git");
    var b := StartListing("r", "b", 1.0);
    var d := BackfillDone("r", "b", "git", 5, 2, 2.0);
    ops := [a, b, a, d];
    FourSteps(a, b, a, d);
  }

  /** ... and one listed twice and then done, never queued again, over the run that was superseded. */
  lemma DoneYetSuperseded() returns (ops: seq<Op>)
    ensures Orderly(ops) && DoneOver(Run(EMPTY, ops), "r@b", 0)
  {
    assert Key("r", "b") == "r@b";
    var a := QueueRepo("r", "b", "git");
    var b := StartListing("r", "b", 1.0);
    var d := RepoDone("r", "b", 2.0);
    ops := [a, b, b, d];
    FourSteps(a, b, b, d);
    assert ops[..0] == [];
  }

  lemma FourSteps(a: Op, b: Op, c: Op, d: Op)
    ensures Run(EMPTY, [a, b, c, d]) == Step(Step(Step(Step(EMPTY, a), b), c), d)
  {
    OneStep([], a, [a]);
    OneStep([a], b, [a, b]);
    OneStep([a, b], c, [a, b, c]);
    OneStep([a, b, c], d, [a, b, c, d]);
  }

  lemma {:induction false} OneStep(ops: seq<Op>, op: Op, more: seq<Op>)
    requires more == ops + [op]
    ensures Run(EMPTY, more) == Step(Run(EMPTY, ops), op)
  {
    RunSnoc(EMPTY, ops, op);
  }

  /** A backfill fills in a source that has no entry, or one that is queued or done: it is done with these files and
      chunks, and the history has one more run, over, restored, with the same. */
  lemma BackfillFills(s: State, op: Op)
    requires op.BackfillDone?
    requires KeyOf(op) in s.repos ==> s.repos[KeyOf(op)].status.Done? || s.repos[KeyOf(op)].status.Queued?
    ensures var t := Step(s, op);
            && KeyOf(op) in t.repos && |t.runs| == |s.runs| + 1
            && var e := t.repos[KeyOf(op)];
               && e.status == Done && e.totalFiles == e.indexedFiles == op.totalFiles && e.totalChunks == op.totalChunks
               && e.skippedFiles == e.entities == 0 && e.error == None && e.startedAt == e.finishedAt == op.now
               && e.repo == op.repo && e.branch == op.branch && e.sourceType == op.sourceType
    ensures var t := Step(s, op);
            && |t.runs| == |s.runs| + 1
            && var run := t.runs[|s.runs|];
               && run.outcome.status == Success && run.opening.restored && run.outcome.error == None
               && run.outcome.chunks == op.totalChunks && run.outcome.files == op.totalFiles
               && run.opening.startedAt == run.outcome.finishedAt == op.now
               && run.opening.repo == op.repo && run.opening.branch == op.branch
               && run.opening.sourceType == op.sourceType && run.opening.id == |t.runs|
  {
  }

  /** An operation leaves the entries and current runs of all other sources alone, and one on a source that was never
      queued does nothing, but for queueing and backfill. */
  lemma OthersUntouched(s: State, op: Op, key: string)
    ensures key != KeyOf(op) ==> Same(Step(s, op).repos, s.repos, key) && Same(Step(s, op).current, s.current, key)
    ensures KeyOf(op) !in s.repos && !op.QueueRepo? && !op.EnsureQueued? && !op.BackfillDone? ==> Step(s, op) == s
  {
  }

  predicate Same<V(==)>(a: map<string, V>, b: map<string, V>, key: string) {
    (key in a <==> key in b) && (key in a && key in b ==> a[key] == b[key])
  }

  /** Queueing starts an entry from nothing, once only with `ensure_queued`, and touches no run. */
  lemma QueueingStarts(s: State, op: Op)
    requires op.QueueRepo? || op.EnsureQueued?
    ensures var t := Step(s, op);
            && t.runs == s.runs && t.current == s.current && KeyOf(op) in t.repos
            && if op.EnsureQueued? && KeyOf(op) in s.repos then t.repos == s.repos
               else
                 var e := t.repos[KeyOf(op)];
                 && e.status == Queued && e.error == None && e.displayName == None && e.startedAt == e.finishedAt == 0.0
                 && e.totalFiles == e.indexedFiles == e.skippedFiles == e.totalChunks == e.entities == 0
                 && e.repo == op.repo && e.branch == op.branch && e.sourceType == op.sourceType
  {
  }

  /** Listing opens a run of the source, with its name and label, that is from then on its current one. */
  lemma ListingOpens(s: State, op: Op)
    requires op.StartListing? && KeyOf(op) in s.repos
    ensures var t, was := Step(s, op), s.repos[KeyOf(op)];
            && |t.runs| == |s.runs| + 1 && s.runs <= t.runs
            && KeyOf(op) in t.current && t.current[KeyOf(op)] == |s.runs|
            && var run := t.runs[|s.runs|];
               && run.opening.id == |t.runs| && run.opening.startedAt == op.now && !run.opening.restored
               && run.opening.repo == was.repo && run.opening.branch == was.branch
               && run.opening.sourceType == was.sourceType
               && run.outcome == Outcome(Running, 0.0, 0, 0, None, was.displayName)
    ensures var t := Step(s, op);
            && KeyOf(op) in t.repos && t.repos[KeyOf(op)].status == Listing && t.repos[KeyOf(op)].startedAt == op.now
  {
  }

  /** In between, the runs stay as they are, and the entry has its total, a skipped file more, or its label. */
  lemma ProgressShows(s: State, op: Op)
    requires op.StartIndexing? || op.FileIndexed? || op.FileSkipped? || op.SetDisplayName?
    requires KeyOf(op) in s.repos
    ensures var t := Step(s, op);
            && t.runs == s.runs && t.current == s.current && KeyOf(op) in t.repos
            && var e, was := t.repos[KeyOf(op)], s.repos[KeyOf(op)];
               && e.status == (if op.StartIndexing? then Indexing else was.status)
               && e.totalFiles == (if op.StartIndexing? then op.totalFiles else was.totalFiles)
               && e.skippedFiles == was.skippedFiles + (if op.FileSkipped? then 1 else 0)
               && e.indexedFiles == was.indexedFiles + (if op.FileIndexed? then 1 else 0)
               && e.totalChunks == was.totalChunks + (if op.FileIndexed? then op.chunks else 0)
               && e.entities == was.entities + (if op.FileIndexed? then op.entities else 0)
               && e.displayName == (if op.SetDisplayName? then Some(op.name) else was.displayName)
               && e.error == was.error && e.startedAt == was.startedAt && e.finishedAt == was.finishedAt
  {
  }

  /** A source that ends says so, when, and with what error, and so does the run that this closes: the current one, or
      one made up for the purpose. */
  lemma FinishingCloses(s: State, op: Op)
    requires Inv(s) && (op.RepoDone? || op.RepoFailed?) && KeyOf(op) in s.repos
    ensures var t, was := Step(s, op), s.repos[KeyOf(op)];
            var i := if KeyOf(op) in s.current then s.current[KeyOf(op)] else |s.runs|;
            && KeyOf(op) in t.repos && KeyOf(op) !in t.current
            && |t.runs| == |s.runs| + (if KeyOf(op) in s.current then 0 else 1) && i < |t.runs|
            && t.repos[KeyOf(op)].finishedAt == op.now
            && t.repos[KeyOf(op)].status == (if op.RepoDone? then Done else Failed)
            && t.repos[KeyOf(op)].error == (if op.RepoDone? then was.error else Some(op.message))
            && var run := t.runs[i];
               && run.outcome.status == (if op.RepoDone? then Success else JobFailed)
               && run.outcome.error == (if op.RepoDone? then None else Some(op.message))
               && run.outcome.finishedAt == op.now && run.outcome.displayName == was.displayName
               && run.outcome.files == was.indexedFiles && run.outcome.chunks == was.totalChunks
               && (i < |s.runs| ==> run.opening == s.runs[i].opening)
               && (i == |s.runs| ==>
                     && run.opening.id == |t.runs| && !run.opening.restored
                     && run.opening.startedAt == (if was.startedAt == 0.0 then op.now else was.startedAt)
                     && run.opening.repo == was.repo && run.opening.branch == was.branch
                     && run.opening.sourceType == was.sourceType)
    ensures forall k :: 0 <= k < |s.runs| && s.runs[k] != Step(s, op).runs[k] ==>
              KeyOf(op) in s.current && s.current[KeyOf(op)] == k
  {
    assert KeyOf(op) in s.current ==> RunningOf(s, KeyOf(op), s.current[KeyOf(op)]);
  }

  /** The status a source is left with by its operations alone. */
  function StatusBy(ops: seq<Op>, key: string): Option<RepoStatus> {
    if ops == [] then None
    else
      var before, op := StatusBy(ops[..|ops| - 1], key), ops[|ops| - 1];
      if KeyOf(op) != key then before
      else if op.QueueRepo? then Some(Queued)
      else if op.EnsureQueued? then before.Or(Some(Queued))
      else if op.BackfillDone? then
        if before in {Some(Listing), Some(Indexing), Some(Failed)} then before else Some(Done)
      else if before == None then None
      else match op
           case StartListing(_, _, _) => Some(Listing)
           case StartIndexing(_, _, _) => Some(Indexing)
           case RepoDone(_, _, _) => Some(Done)
           case RepoFailed(_, _, _, _) => Some(Failed)
           case _ => before
  }

  /** In every run the status shown for a source follows from the operations on it, whatever the others do. */
  lemma {:induction false} StatusFollows(ops: seq<Op>, key: string)
    ensures var repos := Run(EMPTY, ops).repos;
            StatusBy(ops, key) == if key in repos then Some(repos[key].status) else None
    decreases |ops|
  {
    if ops != [] {
      StatusFollows(ops[..|ops| - 1], key);
      OthersUntouched(Run(EMPTY, ops[..|ops| - 1]), ops[|ops| - 1], key);
    }
  }

  /** Backfill leaves a source that is being listed or indexed, or has failed, exactly as it is, and closes no run. */
  lemma BackfillSpares(s: State, op: Op, key: string)
    requires op.BackfillDone? && key in s.repos
    ensures Active(s, key) || s.repos[key].status.Failed? ==> Step(s, op).repos[key] == s.repos[key]
    ensures s.runs <= Step(s, op).runs && Step(s, op).current == s.current
  {
  }

  // ----- the tracker -----

  const MAX_JOB_HISTORY := 200

  /** The newest runs, newest first. */
  function Newest<T>(runs: seq<T>): (ring: seq<T>)
    ensures |ring| == if |runs| < 200 then |runs| else 200
    ensures forall i :: 0 <= i < |ring| ==> ring[i] == runs[|runs| - 1 - i]
  {
    seq(if |runs| < 200 then |runs| else 200, i requires 0 <= i < |runs| => runs[|runs| - 1 - i])
  }

  class JobRun {
    const opening: Opening
    var outcome: Outcome

    constructor (opening: Opening, outcome: Outcome)
      ensures this.opening == opening && this.outcome == outcome
    {
      this.opening, this.outcome := opening, outcome;
    }

    function Value(): Job
      reads this
    {
      Job(opening, outcome)
    }
  }

  class IndexingTracker {
    var repos: map<string, RepoProgress>
    var jobs: seq<JobRun>                  // newest first, at most MAX_JOB_HISTORY
    var currentJob: map<string, JobRun>
    var jobCounter: nat
    ghost var created: seq<JobRun>         // every record, oldest first
    ghost var state: State

    /** The n-th record ever created holds the n-th run. */
    ghost predicate Records()
      reads this`created, this`state, created
    {
      && |created| == |state.runs|
      && (forall i, j :: 0 <= i < j < |created| ==> created[i] != created[j])
      && (forall i :: 0 <= i < |created| ==> created[i].Value() == state.runs[i])
    }

    /** The current records are those of the current runs. */
    ghost predicate Currents()
      reads this`created, this`state, this`currentJob
    {
      && currentJob.Keys == state.current.Keys
      && (forall key :: key in currentJob ==>
            state.current[key] < |created| && currentJob[key] == created[state.current[key]])
    }

    ghost predicate Valid()
      reads this, created
    {
      && Inv(state) && repos == state.repos && Records() && Currents()
      && jobCounter == |created| && jobs == Newest(created)
    }

    constructor ()
      ensures Valid() && state == EMPTY && created == []
    {
      repos, jobs, currentJob, jobCounter, created, state := map[], [], map[], 0, [], EMPTY;
    }

    /** `appendleft` on the bounded deque: the oldest record falls out. */
    method AppendLeft(job: JobRun)
      requires jobs == Newest(created)
      modifies this`jobs, this`created
      ensures created == old(created) + [job] && jobs == Newest(created)
    {
      created := created + [job];
      var all := [job] + jobs;
      jobs := if |all| > MAX_JOB_HISTORY then all[..MAX_JOB_HISTORY] else all;
    }

    /** A new record, at the front of the ring. */
    method NewJob(opening: Opening, outcome: Outcome) returns (job: JobRun)
      requires Valid() && opening.id == |created| + 1
      modifies this`jobs, this`jobCounter, this`created, this`state
      ensures Valid() && state == old(state).(runs := old(state).runs + [Job(opening, outcome)])
      ensures fresh(job) && created == old(created) + [job]
    {
      OtherwiseCurrent(state, state.(runs := state.runs + [Job(opening, outcome)]));
      jobCounter := jobCounter + 1;
      job := new JobRun(opening, outcome);
      AppendLeft(job);
      state := state.(runs := state.runs + [Job(opening, outcome)]);
    }

    method QueueRepo(repo: string, branch: string, sourceType: string)
      requires Valid()
      modifies this`repos, this`state
      ensures Valid() && state == Step(old(state), Op.QueueRepo(repo, branch, sourceType))
    {
      StepInv(state, Op.QueueRepo(repo, branch, sourceType));
      repos := repos[Key(repo, branch) := RepoProgress(repo, branch, sourceType)];
      state := state.(repos := repos);
    }

    method EnsureQueued(repo: string, branch: string, sourceType: string)
      requires Valid()
      modifies this`repos, this`state
      ensures Valid() && state == Step(old(state), Op.EnsureQueued(repo, branch, sourceType))
    {
      StepInv(state, Op.EnsureQueued(repo, branch, sourceType));
      var key := Key(repo, branch);
      if key !in repos {
        repos := repos[key := RepoProgress(repo, branch, sourceType)];
        state := state.(repos := repos);
      }
    }

    method StartListing(repo: string, branch: string, now: real)
      requires Valid()
      modifies this
      ensures Valid() && state == Step(old(state), Op.StartListing(repo, branch, now))
      ensures old(created) <= created && fresh(created[|old(created)|..])
    {
      var key := Key(repo, branch);
      if key in repos {
        var rp := repos[key].(status := Listing, startedAt := now);
        repos := repos[key := rp];
        state := state.(repos := repos);
        OpenJob(key, rp);
      }
    }

    /** Open a run for a source. */
    method OpenJob(key: string, rp: RepoProgress)
      requires Valid() && Key(rp.repo, rp.branch) == key
      modifies this`jobs, this`jobCounter, this`currentJob, this`created, this`state
      ensures Valid()
      ensures state == old(state).(runs := old(state).runs + [Opened(old(state).runs, rp, rp.startedAt)],
                                   current := old(state).current[key := |old(state).runs|])
      ensures old(created) <= created && fresh(created[|old(created)|..])
    {
      var job := NewJob(Opening(jobCounter + 1, rp.repo, rp.branch, rp.sourceType, rp.startedAt, false),
                        Outcome(Running, 0.0, 0, 0, None, rp.displayName));
      MakeCurrent(key, job);
    }

    method MakeCurrent(key: string, job: JobRun)
      requires Valid() && created != [] && job == created[|created| - 1]
      requires RunningOf(state, key, |created| - 1)
      modifies this`currentJob, this`state
      ensures Valid() && state == old(state).(current := old(state).current[key := |created| - 1])
    {
      MakeCurrentInv(state, key, |created| - 1);
      currentJob := currentJob[key := job];
      state := state.(current := state.current[key := |created| - 1]);
    }

    method StartIndexing(repo: string, branch: string, totalFiles: int)
      requires Valid()
      modifies this`repos, this`state
      ensures Valid() && state == Step(old(state), Op.StartIndexing(repo, branch, totalFiles))
    {
      StepInv(state, Op.StartIndexing(repo, branch, totalFiles));
      var key := Key(repo, branch);
      if key in repos {
        repos := repos[key := repos[key].(status := Indexing, totalFiles := totalFiles)];
        state := state.(repos := repos);
      }
    }

    method FileIndexed(repo: string, branch: string, chunks: int, entities: int)
      requires Valid()
      modifies this`repos, this`state
      ensures Valid() && state == Step(old(state), Op.FileIndexed(repo, branch, chunks, entities))
    {
      StepInv(state, Op.FileIndexed(repo, branch, chunks, entities));
      var key := Key(repo, branch);
      if key in repos {
        var rp := repos[key];
        rp := rp.(indexedFiles := rp.indexedFiles + 1, totalChunks := rp.totalChunks + chunks);
        repos := repos[key := rp.(entities := rp.entities + entities)];
        state := state.(repos := repos);
      }
    }

    method FileSkipped(repo: string, branch: string)
      requires Valid()
      modifies this`repos, this`state
      ensures Valid() && state == Step(old(state), Op.FileSkipped(repo, branch))
    {
      StepInv(state, Op.FileSkipped(repo, branch));
      var key := Key(repo, branch);
      if key in repos {
        repos := repos[key := repos[key].(skippedFiles := repos[key].skippedFiles + 1)];
        state := state.(repos := repos);
      }
    }

    method SetDisplayName(repo: string, branch: string, name: string)
      requires Valid()
      modifies this`repos, this`state
      ensures Valid() && state == Step(old(state), Op.SetDisplayName(repo, branch, name))
    {
      StepInv(state, Op.SetDisplayName(repo, branch, name));
      var key := Key(repo, branch);
      if key in repos {
        repos := repos[key := repos[key].(displayName := Some(name))];
        state := state.(repos := repos);
      }
    }

    /** Close the current run of a source through the record it shares with the ring, or make one up. */
    method FinalizeJob(key: string, rp: RepoProgress, status: JobStatus, error: Option<string>, now: real)
      requires Valid()
      modifies this`jobs, this`currentJob, this`jobCounter, this`created, this`state, created
      ensures Valid() && state == Finalized(old(state), key, rp, status, error, now)
      ensures old(created) <= created && fresh(created[|old(created)|..])
    {
      FinalizedCurrent(state, key, rp, status, error, now);
      if key in currentJob {
        CloseCurrent(key, rp, status, error, now);
      } else {
        CloseNew(key, rp, status, error, now);
      }
    }

    /** The shared record changes, and no other. */
    method CloseRecord(job: JobRun, ghost i: nat, outcome: Outcome)
      requires Records() && i < |created| && job == created[i]
      modifies job
      ensures |created| == |state.runs|
      ensures forall k :: 0 <= k < |created| ==>
                created[k].Value() == if k == i then state.runs[k].(outcome := outcome) else state.runs[k]
    {
      job.outcome := outcome;
    }

    method CloseCurrent(key: string, rp: RepoProgress, status: JobStatus, error: Option<string>, now: real)
      requires Valid() && key in currentJob && Inv(Finalized(state, key, rp, status, error, now))
      modifies this`currentJob, this`state, created
      ensures Valid() && state == Finalized(old(state), key, rp, status, error, now)
    {
      ghost var i := state.current[key];
      var job := currentJob[key];
      CloseRecord(job, i, Closing(rp, status, error, now));
      currentJob := currentJob - {key};
      state := Finalized(state, key, rp, status, error, now);
    }

    method CloseNew(key: string, rp: RepoProgress, status: JobStatus, error: Option<string>, now: real)
      requires Valid() && key !in currentJob && Inv(Finalized(state, key, rp, status, error, now))
      modifies this`jobs, this`jobCounter, this`created, this`state
      ensures Valid() && state == Finalized(old(state), key, rp, status, error, now)
      ensures old(created) <= created && fresh(created[|old(created)|..])
    {
      assert state.current - {key} == state.current;
      var startedAt := if rp.startedAt != 0.0 then rp.startedAt else now;
      var _ := NewJob(Opening(jobCounter + 1, rp.repo, rp.branch, rp.sourceType, startedAt, false),
                      Closing(rp, status, error, now));
    }

    method RepoDone(repo: string, branch: string, now: real)
      requires Valid()
      modifies this, created
      ensures Valid() && state == Step(old(state), Op.RepoDone(repo, branch, now))
      ensures old(created) <= created && fresh(created[|old(created)|..])
    {
      var key := Key(repo, branch);
      if key in repos {
        var rp := repos[key].(status := Done, finishedAt := now);
        repos := repos[key := rp];
        state := state.(repos := repos);
        FinalizeJob(key, rp, Success, None, now);
      }
    }

    method RepoFailed(repo: string, branch: string, message: string, now: real)
      requires Valid()
      modifies this, created
      ensures Valid() && state == Step(old(state), Op.RepoFailed(repo, branch, message, now))
      ensures old(created) <= created && fresh(created[|old(created)|..])
    {
      var key := Key(repo, branch);
      if key in repos {
        var rp := repos[key].(status := Failed, error := Some(message), finishedAt := now);
        repos := repos[key := rp];
        state := state.(repos := repos);
        FinalizeJob(key, rp, JobFailed, Some(message), now);
      }
    }

    method BackfillDone(repo: string, branch: string, sourceType: string, totalChunks: int, totalFiles: int, now: real)
      requires Valid()
      modifies this
      ensures Valid() && state == Step(old(state), Op.BackfillDone(repo, branch, sourceType, totalChunks, totalFiles, now))
      ensures old(created) <= created && fresh(created[|old(created)|..])
    {
      var key := Key(repo, branch);
      if key in repos && !repos[key].status.Done? && !repos[key].status.Queued? {
        return;
      }
      repos := repos[key := RepoProgress(repo, branch, sourceType, Done, totalFiles, totalFiles, 0, totalChunks, 0, None,
                                         now, now)];
      state := state.(repos := repos);
      var _ := NewJob(Opening(jobCounter + 1, repo, branch, sourceType, now, true),
                      Outcome(Success, now, totalChunks, totalFiles, None, None));
    }

    /** The run history: the newest 200 runs, newest first, how long each took or has been taking, and how many of them
        are running and failed. */
    method GetJobs(now: real) returns (history: seq<Job>, durations: seq<real>, running: nat, failed: nat)
      requires Valid()
      ensures history == Newest(state.runs)
      ensures |durations| == |history| && forall i :: 0 <= i < |history| ==> durations[i] == Duration(history[i], now)
      ensures forall i :: 0 <= i < |history| ==>
                var start, end := history[i].opening.startedAt, history[i].outcome.finishedAt;
                durations[i] == if start == 0.0 then 0.0 else if end == 0.0 then now - start else end - start
      ensures running == Tally(history, Running) && failed == Tally(history, JobFailed)
    {
      history, durations := [], [];
      for i := 0 to |jobs|
        invariant |history| == i && forall k :: 0 <= k < i ==> history[k] == Newest(state.runs)[k]
        invariant |durations| == i && forall k :: 0 <= k < i ==> durations[k] == Duration(history[k], now)
      {
        history := history + [jobs[i].Value()];
        durations := durations + [Duration(jobs[i].Value(), now)];
      }
      running := CountJobs(history, Running);
      failed := CountJobs(history, JobFailed);
    }
  }

  /** Seconds, unrounded; a run that is not over has been taking until now. */
  function Duration(j: Job, now: real): real {
    var end := if j.outcome.finishedAt != 0.0 then j.outcome.finishedAt else now;
    if j.opening.startedAt == 0.0 then 0.0 else end - j.opening.startedAt
  }

  method CountJobs(history: seq<Job>, status: JobStatus) returns (n: nat)
    ensures n == Tally(history, status)
  {
    n := 0;
    for i := 0 to |history|
      invariant n == Tally(history[..i], status)
    {
      assert history[..i + 1][..i] == history[..i];
      if history[i].outcome.status == status {
        n := n + 1;
      }
    }
    assert history[..|history|] == history;
  }

  function Tally(history: seq<Job>, status: JobStatus): nat {
    if history == [] then 0
    else Tally(history[..|history| - 1], status) + if history[|history| - 1].outcome.status == status then 1 else 0
  }

  /** A tally is the number of runs with the status. */
  lemma {:induction false} TallyCounts(history: seq<Job>, status: JobStatus)
    ensures Tally(history, status) == |Places(history, status)|
  {
    if history != [] {
      var n := |history| - 1;
      TallyCounts(history[..n], status);
      var last := if history[n].outcome.status == status then {n} else {};
      assert Places(history, status) == Places(history[..n], status) + last && Places(history[..n], status) !! last;
    }
  }

  /** Where the runs with the status stand. */
  function Places(history: seq<Job>, status: JobStatus): set<nat> {
    set i: nat | i < |history| && history[i].outcome.status == status
  }

  /** Every listed run is one of the newest 200, and the ids go down one by one from the number of runs there were. */
  lemma {:induction false} NewestIds(ops: seq<Op>, i: nat)
    requires i < |Newest(Run(EMPTY, ops).runs)|
    ensures Newest(Run(EMPTY, ops).runs)[i].opening.id == |Run(EMPTY, ops).runs| - i
  {
    RunInv(EMPTY, ops);
  }
}
