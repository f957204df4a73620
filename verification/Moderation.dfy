/** Moderation of user corrections (opsrag/pending_corrections.py, lines 52-146; opsrag/correction_store.py, lines
    73-230; the handlers in opsrag/api/routes.py, lines 1877-1970).

    A handler is a read of the queue, an upsert of the chunk and a conditional update of the row, and handlers
    interleave between these.  Any of them may raise.  A chunk id is its key: the digest is taken to be injective. */
module Moderation {

  import opened Options

  datatype Status = Pending | Approved | Rejected

  /** What comes with a correction and is only passed on. */
  datatype Extra = Extra(wrongAnswer: string, evidenceUrl: Option<string>, threadId: Option<string>)

  datatype Row = Row(question: string, answer: string, user: Option<string>, extra: Extra, status: Status,
                     chunkId: Option<string>)

  /** What a chunk's payload says of where it comes from; who approved it and when is not part of this model. */
  datatype Metadata = Metadata(question: string, wrongAnswer: string, answer: string, user: string,
                               evidenceUrl: Option<string>)

  /** A retrieval point.  `origin` is the row it was made from. */
  datatype Chunk = Chunk(body: string, metadata: Metadata, origin: nat)

  /** str.strip and str.lower. */
  datatype Text = Text(strip: string -> string, lower: string -> string) {
    function Norm(s: string): string { lower(strip(s)) }
  }

  function Or(s: Option<string>, default: string): string {
    if s.None? || s.value == "" then default else s.value
  }

  function Joined(question: string, user: string): string { question + "|" + user }

  function ChunkId(text: Text, question: string, user: string): string {
    Joined(text.Norm(question), text.Norm(user))
  }

  function SyntheticChunk(text: Text, question: string, answer: string): string {
    "Q: " + text.strip(question) + "\nA (user-corrected): " + text.strip(answer)
  }

  function KeyOf(text: Text, r: Row): string { ChunkId(text, r.question, Or(r.user, "anonymous")) }

  function ChunkOf(text: Text, r: Row, id: nat): Chunk {
    Chunk(SyntheticChunk(text, r.question, r.answer),
          Metadata(r.question, r.extra.wrongAnswer, r.answer, Or(r.user, "anonymous"), r.extra.evidenceUrl), id)
  }

  /** `store_correction` raises on an empty question or answer. */
  predicate Injectable(r: Row) { r.question != "" && r.answer != "" }

  function Truncated(s: string, n: nat): string { if |s| <= n then s else s[..n] }

  function Submitted(rows: seq<Row>, question: string, answer: string, user: Option<string>, extra: Extra): seq<Row> {
    rows + [Row(Truncated(question, 4000), Truncated(answer, 8000), user,
                extra.(wrongAnswer := Truncated(extra.wrongAnswer, 8000)), Pending, None)]
  }

  /** The conditional update: only a pending row changes. */
  function Resolved(rows: seq<Row>, id: nat, status: Status, chunkId: Option<string>): seq<Row> {
    if id < |rows| && rows[id].status.Pending?
    then rows[id := rows[id].(status := status, chunkId := chunkId)]
    else rows
  }

  // ----- handlers as interleaved steps -----

  datatype Task = Approving(id: nat, row: Row) | Injected(id: nat, chunkId: string) | Rejecting(id: nat, row: Row)

  datatype Reply = Reply(id: nat, status: Status)

  datatype State = State(
    rows: seq<Row>,                 // the queue; a row's id is its position
    chunks: map<string, Chunk>,     // live corrections
    tasks: map<nat, Task>,          // handlers between two awaits
    replies: map<nat, Reply>)       // what a finished handler reported

  datatype Action = Submit(question: string, answer: string, user: Option<string>, extra: Extra)
                  | GetToApprove(t: nat, id: nat) | Inject(t: nat) | ResolveApproved(t: nat)
                  | GetToReject(t: nat, id: nat) | ResolveRejected(t: nat)
                  | Raise(t: nat) | InjectAndRaise(t: nat) | Delete(chunkId: string)

  const EMPTY := State([], map[], map[], map[])

  predicate Idle(s: State, t: nat) { t !in s.tasks && t !in s.replies }

  predicate Enabled(s: State, a: Action) {
    match a
    case Submit(_, _, _, _) => true
    case GetToApprove(t, id) => Idle(s, t) && id < |s.rows|
    case Inject(t) => t in s.tasks && s.tasks[t].Approving? && Injectable(s.tasks[t].row)
    case InjectAndRaise(t) => t in s.tasks && s.tasks[t].Approving? && Injectable(s.tasks[t].row)
    case ResolveApproved(t) => t in s.tasks && s.tasks[t].Injected?
    case GetToReject(t, id) => Idle(s, t) && id < |s.rows|
    case ResolveRejected(t) => t in s.tasks && s.tasks[t].Rejecting?
    case Raise(t) => t in s.tasks
    case Delete(_) => true
  }

  function Step(text: Text, s: State, a: Action): State
    requires Enabled(s, a)
  {
    match a
    case Submit(question, answer, user, extra) => s.(rows := Submitted(s.rows, question, answer, user, extra))
    case GetToApprove(t, id) =>
      if s.rows[id].status.Pending? then s.(tasks := s.tasks[t := Approving(id, s.rows[id])])
      else s.(replies := s.replies[t := Reply(id, s.rows[id].status)])
    case Inject(t) =>
      var task := s.tasks[t];
      s.(chunks := s.chunks[KeyOf(text, task.row) := ChunkOf(text, task.row, task.id)],
         tasks := s.tasks[t := Injected(task.id, KeyOf(text, task.row))])
    case InjectAndRaise(t) =>
      var task := s.tasks[t];
      s.(chunks := s.chunks[KeyOf(text, task.row) := ChunkOf(text, task.row, task.id)], tasks := s.tasks - {t})
    case ResolveApproved(t) =>
      var task := s.tasks[t];
      s.(rows := Resolved(s.rows, task.id, Approved, Some(task.chunkId)), tasks := s.tasks - {t},
         replies := s.replies[t := Reply(task.id, Approved)])
    case GetToReject(t, id) => s.(tasks := s.tasks[t := Rejecting(id, s.rows[id])])
    case ResolveRejected(t) =>
      var task := s.tasks[t];
      var changed := task.id < |s.rows| && s.rows[task.id].status.Pending?;
      s.(rows := Resolved(s.rows, task.id, Rejected, None), tasks := s.tasks - {t},
         replies := s.replies[t := Reply(task.id, if changed then Rejected else task.row.status)])
    case Raise(t) => s.(tasks := s.tasks - {t})
    case Delete(chunkId) => s.(chunks := s.chunks - {chunkId})
  }

  function Run(text: Text, s: State, actions: seq<Action>): State
    decreases |actions|
  {
    if actions == [] then s
    else
      var t, a := Run(text, s, actions[..|actions| - 1]), actions[|actions| - 1];
      if Enabled(t, a) then Step(text, t, a) else t
  }

  lemma {:induction false} RunSnoc(text: Text, s: State, actions: seq<Action>, a: Action)
    ensures var t := Run(text, s, actions);
            Run(text, s, actions + [a]) == if Enabled(t, a) then Step(text, t, a) else t
  {
    assert (actions + [a])[..|actions|] == actions;
  }

  // ----- rows -----

  /** The later row is the earlier one, but that a pending one may have been resolved. */
  predicate Follows(before: Row, after: Row) {
    && after.question == before.question && after.answer == before.answer && after.user == before.user
    && after.extra == before.extra
    && (!before.status.Pending? ==> after == before)
  }

  ghost predicate Later(s: State, t: State) {
    |s.rows| <= |t.rows| && forall id :: 0 <= id < |s.rows| ==> Follows(s.rows[id], t.rows[id])
  }

  /** In every continuation a row keeps its question, answer and submitter, and once it has left `pending` it never
      changes again: a row is resolved at most once. */
  lemma {:induction false} ResolvedOnce(text: Text, s: State, actions: seq<Action>)
    ensures Later(s, Run(text, s, actions))
    decreases |actions|
  {
    if actions != [] {
      ResolvedOnce(text, s, actions[..|actions| - 1]);
    }
  }

  // ----- live chunks -----

  /** What a handler holds is what it read: the row as it still is, but that it may have been resolved since. */
  ghost predicate TaskRead(text: Text, rows: seq<Row>, task: Task) {
    && task.id < |rows|
    && (task.Approving? ==> task.row.status.Pending? && Follows(task.row, rows[task.id]))
    && (task.Rejecting? ==> Follows(task.row, rows[task.id]))
    && (task.Injected? ==> task.chunkId == KeyOf(text, rows[task.id]))
  }

  /** A live chunk has the key and the body of its row. */
  ghost predicate ChunkRead(text: Text, rows: seq<Row>, key: string, c: Chunk) {
    && c.origin < |rows|
    && key == KeyOf(text, rows[c.origin])
    && c == ChunkOf(text, rows[c.origin], c.origin)
  }

  /** An approved row has the chunk it was approved with, and no other row has one. */
  ghost predicate RowRight(text: Text, r: Row) {
    r.chunkId == if r.status.Approved? then Some(KeyOf(text, r)) else None
  }

  /** A row with a reply has been resolved, and if the reply is `rejected`, so was the row. */
  ghost predicate ReplyTrue(rows: seq<Row>, r: Reply) {
    r.id < |rows| && !rows[r.id].status.Pending? && (r.status.Rejected? ==> rows[r.id].status.Rejected?)
  }

  ghost predicate Inv(text: Text, s: State) {
    && (forall t :: t in s.tasks ==> TaskRead(text, s.rows, s.tasks[t]))
    && (forall key :: key in s.chunks ==> ChunkRead(text, s.rows, key, s.chunks[key]))
    && (forall t :: t in s.replies ==> ReplyTrue(s.rows, s.replies[t]))
    && (forall id :: 0 <= id < |s.rows| ==> RowRight(text, s.rows[id]))
  }

  lemma RowsStep(text: Text, s: State, a: Action)
    requires Inv(text, s) && Enabled(s, a)
    ensures forall id :: 0 <= id < |Step(text, s, a).rows| ==> RowRight(text, Step(text, s, a).rows[id])
  {
    var t := Step(text, s, a);
    assert a.ResolveApproved? ==> TaskRead(text, s.rows, s.tasks[a.t]);
    forall id | 0 <= id < |t.rows| ensures RowRight(text, t.rows[id]) {
      assert id < |s.rows| ==> RowRight(text, s.rows[id]);
    }
  }

  lemma StepLater(text: Text, s: State, a: Action)
    requires Enabled(s, a)
    ensures Later(s, Step(text, s, a))
  {
  }

  lemma ReadsStay(text: Text, s: State, t: State)
    requires Inv(text, s) && Later(s, t) && forall id :: 0 <= id < |t.rows| ==> RowRight(text, t.rows[id])
    ensures Inv(text, s.(rows := t.rows))
  {
    forall k | k in s.tasks ensures TaskRead(text, t.rows, s.tasks[k]) {
      assert TaskRead(text, s.rows, s.tasks[k]);
    }
    forall key | key in s.chunks ensures ChunkRead(text, t.rows, key, s.chunks[key]) {
      assert ChunkRead(text, s.rows, key, s.chunks[key]);
    }
    forall k | k in s.replies ensures ReplyTrue(t.rows, s.replies[k]) {
      assert ReplyTrue(s.rows, s.replies[k]);
    }
  }

  lemma StepInv(text: Text, s: State, a: Action)
    requires Inv(text, s) && Enabled(s, a)
    ensures Inv(text, Step(text, s, a))
  {
    var r := s.(rows := Step(text, s, a).rows);
    StepLater(text, s, a);
    RowsStep(text, s, a);
    ReadsStay(text, s, r);
    match a
    case Submit(_, _, _, _) =>
    case GetToApprove(t, id) => ReadInv(text, s, t, id, a);
    case GetToReject(t, id) => ReadInv(text, s, t, id, a);
    case Inject(t) => WriteInv(text, s, t);
    case InjectAndRaise(t) => WriteInv(text, s, t);
    case ResolveApproved(t) =>
      assert TaskRead(text, s.rows, s.tasks[t]);
      ReplyInv(text, r, t, Reply(s.tasks[t].id, Approved));
    case ResolveRejected(t) =>
      assert TaskRead(text, s.rows, s.tasks[t]);
      ReplyInv(text, r, t, Step(text, s, a).replies[t]);
    case Raise(_) =>
    case Delete(_) =>
  }

  lemma ReadInv(text: Text, s: State, t: nat, id: nat, a: Action)
    requires Inv(text, s) && Enabled(s, a) && (a == GetToApprove(t, id) || a == GetToReject(t, id))
    ensures Inv(text, Step(text, s, a))
  {
    var u := Step(text, s, a);
    assert u.rows == s.rows && u.chunks == s.chunks;
    forall k | k in u.tasks ensures TaskRead(text, u.rows, u.tasks[k]) {
      assert k != t ==> k in s.tasks && u.tasks[k] == s.tasks[k] && TaskRead(text, s.rows, s.tasks[k]);
    }
    forall k | k in u.replies ensures ReplyTrue(u.rows, u.replies[k]) {
      assert k != t ==> k in s.replies && u.replies[k] == s.replies[k];
    }
  }

  lemma WriteInv(text: Text, s: State, t: nat)
    requires Inv(text, s) && Enabled(s, Inject(t))
    ensures Inv(text, Step(text, s, Inject(t))) && Inv(text, Step(text, s, InjectAndRaise(t)))
  {
    var task := s.tasks[t];
    assert TaskRead(text, s.rows, task);
    assert ChunkRead(text, s.rows, KeyOf(text, task.row), ChunkOf(text, task.row, task.id));
  }

  lemma ReplyInv(text: Text, s: State, t: nat, reply: Reply)
    requires Inv(text, s) && ReplyTrue(s.rows, reply)
    ensures Inv(text, s.(tasks := s.tasks - {t}, replies := s.replies[t := reply]))
  {
  }

  lemma {:induction false} RunInv(text: Text, s: State, actions: seq<Action>)
    requires Inv(text, s)
    ensures Inv(text, Run(text, s, actions))
    decreases |actions|
  {
    if actions != [] {
      var front, a := actions[..|actions| - 1], actions[|actions| - 1];
      RunInv(text, s, front);
      if Enabled(Run(text, s, front), a) {
        StepInv(text, Run(text, s, front), a);
      }
    }
  }

  /** Every way to the same row leads to the same chunk: in every run two live chunks made from one row are one, and its
      key and body are the row's, however often and however concurrently the row was approved. */
  lemma {:induction false} OneChunkPerRow(text: Text, actions: seq<Action>, k1: string, k2: string)
    requires var s := Run(text, EMPTY, actions); k1 in s.chunks && k2 in s.chunks
    ensures var s := Run(text, EMPTY, actions);
            && (s.chunks[k1].origin == s.chunks[k2].origin ==> k1 == k2)
            && var id := s.chunks[k1].origin;
               id < |s.rows| && k1 == KeyOf(text, s.rows[id]) && s.chunks[k1] == ChunkOf(text, s.rows[id], id)
  {
    RunInv(text, EMPTY, actions);
  }

  predicate EndsWith(s: string, end: string) { |end| <= |s| && s[|s| - |end|..] == end }

  /** In every run a live chunk says what its row says: it opens with the question and closes with the answer, both
      there and without outer blanks; it names them, the wrong answer, the user and the evidence; and its key is the
      question and the user, lower-case and without outer blanks. */
  lemma {:induction false} LiveSaysRow(text: Text, actions: seq<Action>, key: string)
    requires key in Run(text, EMPTY, actions).chunks
    ensures var s := Run(text, EMPTY, actions);
            var c := s.chunks[key];
            && c.origin < |s.rows|
            && var row := s.rows[c.origin];
               var user := if row.user.None? || row.user.value == "" then "anonymous" else row.user.value;
               && "Q: " + text.strip(row.question) <= c.body && EndsWith(c.body, "): " + text.strip(row.answer))
               && |c.body| == 24 + |text.strip(row.question)| + |text.strip(row.answer)|
               && c.metadata.question == row.question && c.metadata.answer == row.answer && c.metadata.user == user
               && c.metadata.wrongAnswer == row.extra.wrongAnswer && c.metadata.evidenceUrl == row.extra.evidenceUrl
               && key == text.lower(text.strip(row.question)) + "|" + text.lower(text.strip(user))
  {
    RunInv(text, EMPTY, actions);
    var s := Run(text, EMPTY, actions);
    var c := s.chunks[key];
    assert ChunkRead(text, s.rows, key, c);
    var row := s.rows[c.origin];
    BodyReads(text, row.question, row.answer);
  }

  lemma BodyReads(text: Text, question: string, answer: string)
    ensures var body := SyntheticChunk(text, question, answer);
            && "Q: " + text.strip(question) <= body && EndsWith(body, "): " + text.strip(answer))
            && |body| == 24 + |text.strip(question)| + |text.strip(answer)|
  {
    var body, middle := SyntheticChunk(text, question, answer), "\nA (user-corrected): ";
    assert middle == "\nA (user-corrected" + "): ";
    assert body == "Q: " + text.strip(question) + (middle + text.strip(answer));
    assert body == ("Q: " + text.strip(question) + "\nA (user-corrected") + ("): " + text.strip(answer));
  }

  /** Only a correction with a question and an answer is ever live. */
  lemma {:induction false} LiveIsWhole(text: Text, actions: seq<Action>, key: string)
    requires key in Run(text, EMPTY, actions).chunks
    ensures var c := Run(text, EMPTY, actions).chunks[key]; c.metadata.question != "" && c.metadata.answer != ""
    decreases |actions|
  {
    var front, a := actions[..|actions| - 1], actions[|actions| - 1];
    var s := Run(text, EMPTY, front);
    if key in s.chunks {
      LiveIsWhole(text, front, key);
    }
  }

  /** In every run an approved row names its chunk's key, and no other row names any. */
  lemma {:induction false} RowsNameChunks(text: Text, actions: seq<Action>, id: nat)
    requires id < |Run(text, EMPTY, actions).rows|
    ensures var row := Run(text, EMPTY, actions).rows[id];
            var user := if row.user.None? || row.user.value == "" then "anonymous" else row.user.value;
            row.chunkId == if row.status == Approved
                           then Some(text.lower(text.strip(row.question)) + "|" + text.lower(text.strip(user))) else None
  {
    RunInv(text, EMPTY, actions);
    assert RowRight(text, Run(text, EMPTY, actions).rows[id]);
  }

  /** A submitted correction is pending, and kept as it is up to 4000 and 8000 characters. */
  lemma {:induction false} SubmittedPending(text: Text, actions: seq<Action>, question: string, answer: string,
                                            user: Option<string>, extra: Extra)
    ensures var s := Run(text, EMPTY, actions);
            var t := Run(text, EMPTY, actions + [Submit(question, answer, user, extra)]);
            && |t.rows| == |s.rows| + 1 && s.rows <= t.rows && t.chunks == s.chunks
            && var row := t.rows[|s.rows|];
               && row.status == Pending && row.user == user && row.chunkId == None
               && row.extra.evidenceUrl == extra.evidenceUrl && row.extra.threadId == extra.threadId
               && row.question <= question && |row.question| == Least(|question|, 4000)
               && row.answer <= answer && |row.answer| == Least(|answer|, 8000)
               && row.extra.wrongAnswer <= extra.wrongAnswer
               && |row.extra.wrongAnswer| == Least(|extra.wrongAnswer|, 8000)
  {
    RunSnoc(text, EMPTY, actions, Submit(question, answer, user, extra));
  }

  /** A handler that raises is gone without a reply, and leaves the queue as it was: its row can be approved again, even
      if its chunk was written before. */
  lemma {:induction false} RaisedLeavesQueue(text: Text, actions: seq<Action>, a: Action)
    requires (a.Raise? || a.InjectAndRaise?) && Enabled(Run(text, EMPTY, actions), a)
    ensures var s, t := Run(text, EMPTY, actions), Run(text, EMPTY, actions + [a]);
            && t.rows == s.rows && t.replies == s.replies && t.tasks == s.tasks - {a.t}
            && (a.Raise? ==> t.chunks == s.chunks)
            && (a.InjectAndRaise? ==> exists key :: key in t.chunks && t.chunks[key].origin == s.tasks[a.t].id)
  {
    var s := Run(text, EMPTY, actions);
    RunSnoc(text, EMPTY, actions, a);
    RunInv(text, EMPTY, actions);
    assert TaskRead(text, s.rows, s.tasks[a.t]);
    if a.InjectAndRaise? {
      var key := KeyOf(text, s.tasks[a.t].row);
      assert key in Run(text, EMPTY, actions + [a]).chunks;
    }
  }

  function Least(a: nat, b: nat): nat { if a < b then a else b }

  /** A handler's reply: its row has been resolved, and `rejected` is only said of a row that is. */
  lemma {:induction false} RepliesTrue(text: Text, actions: seq<Action>, t: nat)
    requires t in Run(text, EMPTY, actions).replies
    ensures var s := Run(text, EMPTY, actions); ReplyTrue(s.rows, s.replies[t])
  {
    RunInv(text, EMPTY, actions);
  }

  /** The action ends task `t` with a reply. */
  predicate Ends(s: State, a: Action, t: nat) {
    match a
    case GetToApprove(u, id) => u == t && Enabled(s, a) && !s.rows[id].status.Pending?
    case ResolveApproved(u) => u == t && Enabled(s, a)
    case ResolveRejected(u) => u == t && Enabled(s, a)
    case _ => false
  }

  /** What decides, before such an action, whether its reply will be the status of the row: an approval must not have
      been overtaken by a rejection, nor a rejection that read the row as pending by anything. */
  predicate WillTellTrue(s: State, a: Action)
    requires Enabled(s, a)
  {
    match a
    case ResolveApproved(t) =>
      var task := s.tasks[t];
      task.id < |s.rows| && !s.rows[task.id].status.Rejected?
    case ResolveRejected(t) =>
      var task := s.tasks[t];
      task.id < |s.rows| && (s.rows[task.id].status.Pending? || !task.row.status.Pending?)
    case _ => true
  }

  predicate TellsTrue(s: State, t: nat)
    requires t in s.replies
  {
    s.replies[t].id < |s.rows| && s.replies[t].status == s.rows[s.replies[t].id].status
  }

  lemma ReplyStep(text: Text, s: State, a: Action, t: nat)
    requires Inv(text, s) && Ends(s, a, t)
    ensures t in Step(text, s, a).replies && (TellsTrue(Step(text, s, a), t) <==> WillTellTrue(s, a))
  {
    assert t in s.tasks ==> TaskRead(text, s.rows, s.tasks[t]);
  }

  lemma ReplyStays(text: Text, s: State, a: Action, t: nat)
    requires Inv(text, s) && Enabled(s, a) && t in s.replies && !Ends(s, a, t)
    ensures var u := Step(text, s, a);
            t in u.replies && u.replies[t] == s.replies[t] && (TellsTrue(u, t) <==> TellsTrue(s, t))
  {
    StepLater(text, s, a);
    assert ReplyTrue(s.rows, s.replies[t]);
  }

  /** In every run a reply is the status of its row, from then on for ever, exactly if that was so decided when it was
      given: always for a row found resolved; for an approval, if the row had not been rejected; for a rejection, if the
      row was pending, or already had not been when it was read. */
  lemma {:induction false} RepliesExact(text: Text, actions: seq<Action>, t: nat) returns (j: nat)
    requires t in Run(text, EMPTY, actions).replies
    ensures j < |actions| && Ends(Run(text, EMPTY, actions[..j]), actions[j], t)
    ensures TellsTrue(Run(text, EMPTY, actions), t) <==> WillTellTrue(Run(text, EMPTY, actions[..j]), actions[j])
    decreases |actions|
  {
    var n := |actions| - 1;
    var front, a := actions[..n], actions[n];
    var s := Run(text, EMPTY, front);
    RunInv(text, EMPTY, front);
    if Ends(s, a, t) {
      j := n;
      ReplyStep(text, s, a, t);
    } else {
      j := RepliesExact(text, front, t);
      assert front[..j] == actions[..j];
      if Enabled(s, a) {
        ReplyStays(text, s, a, t);
      }
    }
  }

  /** The j-th action reads row `id`, still pending, for approval by task `t`. */
  ghost predicate ReadPendingAt(text: Text, actions: seq<Action>, j: nat, t: nat, id: nat) {
    && j < |actions| && actions[j] == GetToApprove(t, id)
    && var s := Run(text, EMPTY, actions[..j]);
       Enabled(s, actions[j]) && s.rows[id].status.Pending?
  }

  /** The k-th action writes the chunk of task `t`. */
  ghost predicate WritesAt(text: Text, actions: seq<Action>, k: nat, t: nat) {
    && k < |actions| && (actions[k] == Inject(t) || actions[k] == InjectAndRaise(t))
    && Enabled(Run(text, EMPTY, actions[..k]), actions[k])
  }

  lemma ReadPendingStays(text: Text, actions: seq<Action>, n: nat, j: nat, t: nat, id: nat)
    requires n <= |actions| && ReadPendingAt(text, actions[..n], j, t, id)
    ensures ReadPendingAt(text, actions, j, t, id)
  {
    assert actions[..n][..j] == actions[..j];
  }

  lemma {:induction false} TaskWasRead(text: Text, actions: seq<Action>, t: nat) returns (j: nat)
    requires var s := Run(text, EMPTY, actions); t in s.tasks && s.tasks[t].Approving?
    ensures ReadPendingAt(text, actions, j, t, Run(text, EMPTY, actions).tasks[t].id)
    decreases |actions|
  {
    var n := |actions| - 1;
    var front, a := actions[..n], actions[n];
    var s := Run(text, EMPTY, front);
    if t in s.tasks {
      j := TaskWasRead(text, front, t);
      ReadPendingStays(text, actions, n, j, t, s.tasks[t].id);
    } else {
      j := n;
    }
  }

  /** Every live chunk was written by an approval that had read its row as pending. */
  lemma {:induction false} LiveWasRead(text: Text, actions: seq<Action>, key: string) returns (j: nat, k: nat, t: nat)
    requires key in Run(text, EMPTY, actions).chunks
    ensures j < k && ReadPendingAt(text, actions, j, t, Run(text, EMPTY, actions).chunks[key].origin)
    ensures WritesAt(text, actions, k, t)
    decreases |actions|
  {
    var n := |actions| - 1;
    var front, a := actions[..n], actions[n];
    var s := Run(text, EMPTY, front);
    if Enabled(s, a) && (a.Inject? || a.InjectAndRaise?) && KeyOf(text, s.tasks[a.t].row) == key {
      k, t := n, a.t;
      j := TaskWasRead(text, front, t);
      ReadPendingStays(text, actions, n, j, t, s.tasks[t].id);
    } else {
      j, k, t := LiveWasRead(text, front, key);
      ReadPendingStays(text, actions, n, j, t, s.chunks[key].origin);
      assert front[..k] == actions[..k];
    }
  }

  // ----- approved rows -----

  ghost predicate Live(s: State, id: nat) { exists key :: key in s.chunks && s.chunks[key].origin == id }

  predicate Writes(text: Text, s: State, a: Action, key: string) {
    (a.Inject? || a.InjectAndRaise?) && Enabled(s, a) && KeyOf(text, s.tasks[a.t].row) == key
  }

  /** The k-th action writes the chunk of row `id` under the key. */
  ghost predicate WritesRowAt(text: Text, actions: seq<Action>, k: nat, key: string, id: nat) {
    && k < |actions|
    && var s := Run(text, EMPTY, actions[..k]);
       Writes(text, s, actions[k], key) && s.tasks[actions[k].t].id == id
  }

  /** The j-th action deletes the chunk under the key, or writes that of another row over it. */
  ghost predicate RemovesRowAt(text: Text, actions: seq<Action>, j: nat, key: string, id: nat) {
    && j < |actions|
    && var s := Run(text, EMPTY, actions[..j]);
       actions[j] == Delete(key) || (Writes(text, s, actions[j], key) && s.tasks[actions[j].t].id != id)
  }

  ghost predicate WrittenForGood(text: Text, actions: seq<Action>, k: nat, key: string, id: nat) {
    WritesRowAt(text, actions, k, key, id) && forall j :: k < j < |actions| ==> !RemovesRowAt(text, actions, j, key, id)
  }

  ghost predicate Holds(s: State, key: string, id: nat) { key in s.chunks && s.chunks[key].origin == id }

  lemma FrontRow(text: Text, actions: seq<Action>, n: nat, k: nat, key: string, id: nat)
    requires k < n <= |actions|
    ensures WritesRowAt(text, actions[..n], k, key, id) <==> WritesRowAt(text, actions, k, key, id)
    ensures RemovesRowAt(text, actions[..n], k, key, id) <==> RemovesRowAt(text, actions, k, key, id)
  {
    assert actions[..n][..k] == actions[..k];
  }

  lemma FrontForGood(text: Text, actions: seq<Action>, k: nat, key: string, id: nat)
    requires k < |actions| - 1
    ensures var n := |actions| - 1;
            WrittenForGood(text, actions, k, key, id)
            <==> WrittenForGood(text, actions[..n], k, key, id) && !RemovesRowAt(text, actions, n, key, id)
  {
    var n := |actions| - 1;
    FrontRow(text, actions, n, k, key, id);
    forall j: nat | k < j < n
      ensures RemovesRowAt(text, actions[..n], j, key, id) <==> RemovesRowAt(text, actions, j, key, id)
    {
      FrontRow(text, actions, n, j, key, id);
    }
  }

  /** In every run a key holds the chunk of a row exactly if an approval wrote it there and since then it has been
      neither deleted nor overwritten with that of another row. */
  lemma {:induction false} HeldIsWritten(text: Text, actions: seq<Action>, key: string, id: nat)
    ensures Holds(Run(text, EMPTY, actions), key, id) <==> exists k :: WrittenForGood(text, actions, k, key, id)
    decreases |actions|
  {
    if actions != [] {
      var n := |actions| - 1;
      var s := Run(text, EMPTY, actions[..n]);
      HeldIsWritten(text, actions[..n], key, id);
      forall k: nat | k < n
        ensures WrittenForGood(text, actions, k, key, id)
                <==> WrittenForGood(text, actions[..n], k, key, id) && !RemovesRowAt(text, actions, n, key, id)
      {
        FrontForGood(text, actions, k, key, id);
      }
      assert WrittenForGood(text, actions, n, key, id) <==> WritesRowAt(text, actions, n, key, id);
      HoldsStep(text, s, actions[n], key, id);
    }
  }

  lemma HoldsStep(text: Text, s: State, a: Action, key: string, id: nat)
    ensures var t := if Enabled(s, a) then Step(text, s, a) else s;
            Holds(t, key, id) <==>
              if Writes(text, s, a, key) then s.tasks[a.t].id == id else Holds(s, key, id) && a != Delete(key)
  {
  }

  lemma NewlyInjected(text: Text, s: State, a: Action, t: nat)
    ensures var u := if Enabled(s, a) then Step(text, s, a) else s;
            t in u.tasks && u.tasks[t].Injected? ==>
              if t in s.tasks && s.tasks[t].Injected? then u.tasks[t] == s.tasks[t]
              else Writes(text, s, a, u.tasks[t].chunkId) && a.t == t && s.tasks[t].id == u.tasks[t].id
  {
  }

  lemma {:induction false} InjectedWrote(text: Text, actions: seq<Action>, t: nat) returns (k: nat)
    requires var s := Run(text, EMPTY, actions); t in s.tasks && s.tasks[t].Injected?
    ensures var task := Run(text, EMPTY, actions).tasks[t]; WritesRowAt(text, actions, k, task.chunkId, task.id)
    decreases |actions|
  {
    var n := |actions| - 1;
    var s := Run(text, EMPTY, actions[..n]);
    NewlyInjected(text, s, actions[n], t);
    if t in s.tasks && s.tasks[t].Injected? {
      k := InjectedWrote(text, actions[..n], t);
      FrontRow(text, actions, n, k, s.tasks[t].chunkId, s.tasks[t].id);
    } else {
      k := n;
    }
  }

  lemma NewlyApproved(text: Text, s: State, a: Action, id: nat)
    requires Inv(text, s) && Enabled(s, a)
    requires id < |Step(text, s, a).rows| && Step(text, s, a).rows[id].status.Approved?
    requires id < |s.rows| ==> !s.rows[id].status.Approved?
    ensures a.ResolveApproved? && s.tasks[a.t].id == id
            && s.tasks[a.t].chunkId == KeyOf(text, Step(text, s, a).rows[id])
  {
    assert a.ResolveApproved? ==> TaskRead(text, s.rows, s.tasks[a.t]);
  }

  lemma ApprovedBefore(text: Text, s: State, a: Action, id: nat)
    requires Enabled(s, a) && id < |s.rows|
    ensures id < |Step(text, s, a).rows| && KeyOf(text, Step(text, s, a).rows[id]) == KeyOf(text, s.rows[id])
  {
    StepLater(text, s, a);
  }

  /** The chunk of an approved row was written by some approval. */
  lemma {:induction false} ApprovedWasWritten(text: Text, actions: seq<Action>, id: nat) returns (k: nat)
    requires var s := Run(text, EMPTY, actions); id < |s.rows| && s.rows[id].status.Approved?
    ensures WritesRowAt(text, actions, k, KeyOf(text, Run(text, EMPTY, actions).rows[id]), id)
    decreases |actions|
  {
    var n := |actions| - 1;
    var s, a := Run(text, EMPTY, actions[..n]), actions[n];
    RunInv(text, EMPTY, actions[..n]);
    if id < |s.rows| && s.rows[id].status.Approved? {
      k := ApprovedWasWritten(text, actions[..n], id);
      FrontRow(text, actions, n, k, KeyOf(text, s.rows[id]), id);
      if Enabled(s, a) {
        ApprovedBefore(text, s, a, id);
      }
    } else {
      NewlyApproved(text, s, a, id);
      k := InjectedWrote(text, actions[..n], a.t);
      FrontRow(text, actions, n, k, s.tasks[a.t].chunkId, id);
    }
  }

  /** In every run an approved row's chunk was written, and it is live exactly if, since it was last written, it has been
      neither deleted nor overwritten by a correction that shares its key. */
  lemma ApprovedGoesLive(text: Text, actions: seq<Action>, id: nat) returns (k: nat)
    requires var s := Run(text, EMPTY, actions); id < |s.rows| && s.rows[id].status.Approved?
    ensures var s := Run(text, EMPTY, actions);
            var key := KeyOf(text, s.rows[id]);
            && WritesRowAt(text, actions, k, key, id)
            && (Live(s, id) <==> exists j :: WrittenForGood(text, actions, j, key, id))
  {
    var s := Run(text, EMPTY, actions);
    var key := KeyOf(text, s.rows[id]);
    k := ApprovedWasWritten(text, actions, id);
    RunInv(text, EMPTY, actions);
    HeldIsWritten(text, actions, key, id);
    if other :| other in s.chunks && s.chunks[other].origin == id {
      assert ChunkRead(text, s.rows, other, s.chunks[other]);
    }
  }

  // ----- rejected rows -----

  predicate CanInject(task: Task, id: nat) { task.Approving? && task.id == id && Injectable(task.row) }

  /** An approval has read the row and is about to write its chunk. */
  ghost predicate InFlight(s: State, id: nat) { exists t :: t in s.tasks && CanInject(s.tasks[t], id) }

  ghost predicate Out(s: State, id: nat) {
    id < |s.rows| && !s.rows[id].status.Pending? && !Live(s, id) && !InFlight(s, id)
  }

  lemma OutStep(text: Text, s: State, a: Action, id: nat)
    requires Out(s, id) && Enabled(s, a)
    ensures Out(Step(text, s, a), id)
  {
    var t := Step(text, s, a);
    StepLater(text, s, a);
    forall key | key in t.chunks ensures t.chunks[key].origin != id {
      if a.Inject? || a.InjectAndRaise? {
        assert !CanInject(s.tasks[a.t], id);
      }
    }
    forall k | k in t.tasks ensures !CanInject(t.tasks[k], id) {
      assert k in s.tasks ==> !CanInject(s.tasks[k], id);
    }
  }

  lemma {:induction false} OutRun(text: Text, s: State, actions: seq<Action>, id: nat)
    requires Out(s, id)
    ensures Out(Run(text, s, actions), id)
    decreases |actions|
  {
    if actions != [] {
      var front, a := actions[..|actions| - 1], actions[|actions| - 1];
      OutRun(text, s, front, id);
      if Enabled(Run(text, s, front), a) {
        OutStep(text, Run(text, s, front), a, id);
      }
    }
  }

  ghost predicate LiveAfter(text: Text, s: State, actions: seq<Action>, id: nat) { Live(Run(text, s, actions), id) }

  /** Once a row has been rejected, its chunk is live now or in some continuation exactly if it is live already or an
      approval that read the row before is still in flight: with no approval overlapping the rejection, never. */
  lemma RejectedGoesLive(text: Text, s: State, id: nat)
    requires id < |s.rows| && s.rows[id].status.Rejected?
    ensures (exists actions :: LiveAfter(text, s, actions, id)) <==> Live(s, id) || InFlight(s, id)
  {
    if Live(s, id) {
      assert LiveAfter(text, s, [], id);
    } else if InFlight(s, id) {
      var t :| t in s.tasks && CanInject(s.tasks[t], id);
      var key := KeyOf(text, s.tasks[t].row);
      assert Run(text, s, []) == s;
      RunSnoc(text, s, [], Inject(t));
      assert key in Run(text, s, [] + [Inject(t)]).chunks;
      assert LiveAfter(text, s, [] + [Inject(t)], id);
    } else {
      forall actions ensures !LiveAfter(text, s, actions, id) {
        OutRun(text, s, actions, id);
      }
    }
  }

  lemma Take(text: Text, actions: seq<Action>, a: Action) returns (more: seq<Action>)
    requires Enabled(Run(text, EMPTY, actions), a)
    ensures more == actions + [a] && Run(text, EMPTY, more) == Step(text, Run(text, EMPTY, actions), a)
  {
    more := actions + [a];
    RunSnoc(text, EMPTY, actions, a);
  }

  /** An overlapping approval is real: the row ends rejected, its chunk live, and the approval reports success. */
  lemma RejectedYetLive(text: Text) returns (actions: seq<Action>)
    ensures var s := Run(text, EMPTY, actions);
            && |s.rows| == 1 && s.rows[0].status.Rejected? && Live(s, 0)
            && 0 in s.replies && s.replies[0] == Reply(0, Approved)
            && 1 in s.replies && s.replies[1] == Reply(0, Rejected)
  {
    actions := Take(text, [], Submit("question", "answer", None, Extra("", None, None)));
    actions := Take(text, actions, GetToApprove(0, 0));
    actions := Take(text, actions, GetToReject(1, 0));
    actions := Take(text, actions, ResolveRejected(1));
    actions := Take(text, actions, Inject(0));
    var s := Run(text, EMPTY, actions);
    var key := KeyOf(text, s.rows[0]);
    assert key in s.chunks && s.chunks[key].origin == 0;
    actions := Take(text, actions, ResolveApproved(0));
    assert key in Run(text, EMPTY, actions).chunks;
  }

  /** A rejection that loses to an approval reports the status it read, `pending`, of a row that is approved. */
  lemma LostRejection(text: Text) returns (actions: seq<Action>)
    ensures var s := Run(text, EMPTY, actions);
            |s.rows| == 1 && s.rows[0].status.Approved? && 1 in s.replies && s.replies[1] == Reply(0, Pending)
  {
    actions := Take(text, [], Submit("question", "answer", None, Extra("", None, None)));
    actions := Take(text, actions, GetToReject(1, 0));
    actions := Take(text, actions, GetToApprove(0, 0));
    actions := Take(text, actions, Inject(0));
    actions := Take(text, actions, ResolveApproved(0));
    actions := Take(text, actions, ResolveRejected(1));
  }

  // ----- chunk ids -----

  /** `x` is something, a bar, and then `y`. */
  predicate EndsInBar(x: string, y: string) {
    |x| > |y| && x[|x| - |y| - 1] == '|' && x[|x| - |y|..] == y
  }

  function Before(x: string, y: string): string
    requires EndsInBar(x, y)
  {
    x[..|x| - |y| - 1]
  }

  lemma LongerName(q1: string, x: string, q2: string, y: string)
    requires |x| > |y|
    ensures Joined(q1, x) == Joined(q2, y) <==> EndsInBar(x, y) && q2 == Joined(q1, Before(x, y))
  {
    var k1, k2 := Joined(q1, x), Joined(q2, y);
    if k1 == k2 {
      assert |q2| == |q1| + |x| - |y|;
      assert k2[|q2|] == '|' == k1[|q2|] == x[|x| - |y| - 1];
      assert y == k2[|q2| + 1..] == k1[|q2| + 1..] == x[|x| - |y|..];
      assert q2 == k2[..|q2|] == k1[..|q2|] == q1 + "|" + x[..|x| - |y| - 1];
    }
    if EndsInBar(x, y) && q2 == Joined(q1, Before(x, y)) {
      assert x == Before(x, y) + "|" + y;
    }
  }

  lemma SameName(q1: string, x: string, q2: string, y: string)
    requires |x| == |y|
    ensures Joined(q1, x) == Joined(q2, y) <==> q1 == q2 && x == y
  {
    var k1, k2 := Joined(q1, x), Joined(q2, y);
    if k1 == k2 {
      assert |q1| == |q2|;
      assert q1 == k1[..|q1|] && q2 == k2[..|q2|];
      assert x == k1[|q1| + 1..] && y == k2[|q2| + 1..];
    }
  }

  /** Two corrections share a chunk exactly if question and user are the same up to case and outer blanks, or one user's
      name ends in a bar and the other's name, and what is before that bar continues the question. */
  lemma SameChunkId(text: Text, q1: string, u1: string, q2: string, u2: string)
    ensures var a, x, b, y := text.Norm(q1), text.Norm(u1), text.Norm(q2), text.Norm(u2);
            ChunkId(text, q1, u1) == ChunkId(text, q2, u2) <==>
              || (a == b && x == y)
              || (EndsInBar(x, y) && b == Joined(a, Before(x, y)))
              || (EndsInBar(y, x) && a == Joined(b, Before(y, x)))
  {
    var a, x, b, y := text.Norm(q1), text.Norm(u1), text.Norm(q2), text.Norm(u2);
    if |x| > |y| {
      LongerName(a, x, b, y);
    } else if |x| < |y| {
      LongerName(b, y, a, x);
    } else {
      SameName(a, x, b, y);
    }
  }

  predicate Collide(q1: string, x: string, q2: string, y: string) { Joined(q1, x) == Joined(q2, y) }

  /** There are questions whose keys collide for two names exactly if they are one name, or one ends in a bar and the
      other. */
  lemma CollidingNames(x: string, y: string)
    ensures (exists q1, q2 :: Collide(q1, x, q2, y)) <==> x == y || EndsInBar(x, y) || EndsInBar(y, x)
  {
    if x == y {
      assert Collide("", x, "", y);
    } else if EndsInBar(x, y) {
      LongerName("", x, Joined("", Before(x, y)), y);
      assert Collide("", x, Joined("", Before(x, y)), y);
    } else if EndsInBar(y, x) {
      LongerName("", y, Joined("", Before(y, x)), x);
      assert Collide(Joined("", Before(y, x)), x, "", y);
    } else {
      forall q1, q2 ensures !Collide(q1, x, q2, y) {
        if |x| > |y| {
          LongerName(q1, x, q2, y);
        } else if |x| < |y| {
          LongerName(q2, y, q1, x);
        } else {
          SameName(q1, x, q2, y);
        }
      }
    }
  }

  /** So corrections of different users to different questions can share one. */
  lemma SharedChunkId(text: Text)
    requires text.Norm("a|b") == "a|b" && text.Norm("c") == "c" && text.Norm("a") == "a" && text.Norm("b|c") == "b|c"
    ensures ChunkId(text, "a|b", "c") == ChunkId(text, "a", "b|c")
  {
    assert "a|b" + "|" + "c" == "a" + "|" + "b|c";
  }

  // ----- the stores and the handlers -----

  class PendingCorrectionStore {
    var rows: seq<Row>

    constructor ()
      ensures rows == []
    {
      rows := [];
    }

    method Submit(question: string, answer: string, user: Option<string>, extra: Extra) returns (id: nat)
      modifies this
      ensures rows == Submitted(old(rows), question, answer, user, extra) && id == |old(rows)|
    {
      id := |rows|;
      var row := Row(Truncated(question, 4000), Truncated(answer, 8000), user,
                     Extra(Truncated(extra.wrongAnswer, 8000), extra.evidenceUrl, extra.threadId), Pending, None);
      rows := rows + [row];
    }

    method Get(id: nat) returns (row: Option<Row>)
      ensures row == if id < |rows| then Some(rows[id]) else None
    {
      row := if id < |rows| then Some(rows[id]) else None;
    }

    /** None if the status is not a terminal one (the source raises ValueError); otherwise whether the row changed. */
    method Resolve(id: nat, status: Status, chunkId: Option<string>) returns (changed: Option<bool>)
      modifies this
      ensures status.Pending? ==> changed.None? && rows == old(rows)
      ensures !status.Pending? ==>
                && rows == Resolved(old(rows), id, status, chunkId)
                && changed == Some(id < |old(rows)| && old(rows)[id].status.Pending?)
    {
      if status.Pending? {
        return None;
      }
      if id < |rows| && rows[id].status.Pending? {
        rows := rows[id := rows[id].(status := status, chunkId := chunkId)];
        return Some(true);
      }
      return Some(false);
    }
  }

  class CorrectionStore {
    var chunks: map<string, Chunk>
    const text: Text

    constructor (text: Text)
      ensures chunks == map[] && this.text == text
    {
      chunks, this.text := map[], text;
    }

    /** None if the question or the answer is empty (the source raises ValueError). */
    method StoreCorrection(question: string, wrongAnswer: string, answer: string, user: string,
                           evidenceUrl: Option<string>, origin: nat)
      returns (chunkId: Option<string>)
      modifies this`chunks
      ensures question == "" || answer == "" ==> chunkId.None? && chunks == old(chunks)
      ensures question != "" && answer != "" ==>
                chunkId == Some(text.lower(text.strip(question)) + "|" + text.lower(text.strip(user)))
      ensures question != "" && answer != "" ==>
                && chunkId == Some(ChunkId(text, question, user))
                && chunks == old(chunks)[chunkId.value :=
                     Chunk(SyntheticChunk(text, question, answer),
                           Metadata(question, wrongAnswer, answer, user, evidenceUrl), origin)]
    {
      if question == "" || answer == "" {
        return None;
      }
      var id := ChunkId(text, question, user);
      var point := Chunk(SyntheticChunk(text, question, answer),
                         Metadata(question, wrongAnswer, answer, user, evidenceUrl), origin);
      chunks := chunks[id := point];
      return Some(id);
    }

    /** `fails` says that the store does not take the deletion. */
    method DeleteCorrection(chunkId: string, fails: bool) returns (deleted: bool)
      modifies this`chunks
      ensures deleted <==> chunkId != "" && !fails
      ensures chunks == if deleted then old(chunks) - {chunkId} else old(chunks)
    {
      if chunkId == "" || fails {
        return false;
      }
      chunks := chunks - {chunkId};
      return true;
    }
  }

  datatype Response = NotFound | InjectFailed | Review(status: Status)

  /** An approval that nothing overlaps.  Afterwards the row is resolved and what it says is true: if this call resolved
      it, its chunk is the row's, whatever was there before; if not, nothing changed. */
  method ApproveCorrection(queue: PendingCorrectionStore, store: CorrectionStore, id: nat) returns (r: Response)
    modifies queue, store`chunks
    ensures r.NotFound? <==> id >= |old(queue.rows)|
    ensures r.InjectFailed? <==> id < |old(queue.rows)| && old(queue.rows)[id].status.Pending?
                                 && (old(queue.rows)[id].question == "" || old(queue.rows)[id].answer == "")
    ensures r.Review? ==> id < |queue.rows| && r.status == queue.rows[id].status != Pending
    ensures !r.Review? || !old(queue.rows)[id].status.Pending? ==>
              queue.rows == old(queue.rows) && store.chunks == old(store.chunks)
    ensures r.Review? && old(queue.rows)[id].status.Pending? ==>
              var row := old(queue.rows)[id];
              && queue.rows == Resolved(old(queue.rows), id, Approved, Some(KeyOf(store.text, row)))
              && queue.rows == old(queue.rows)[id := row.(status := Approved, chunkId := Some(KeyOf(store.text, row)))]
              && store.chunks == old(store.chunks)[KeyOf(store.text, row) := ChunkOf(store.text, row, id)]
  {
    var row := queue.Get(id);
    if row.None? {
      return NotFound;
    }
    if !row.value.status.Pending? {
      return Review(row.value.status);
    }
    var chunkId := store.StoreCorrection(row.value.question, row.value.extra.wrongAnswer, row.value.answer,
                                         Or(row.value.user, "anonymous"), row.value.extra.evidenceUrl, id);
    if chunkId.None? {
      return InjectFailed;
    }
    var _ := queue.Resolve(id, Approved, chunkId);
    return Review(Approved);
  }

  /** A rejection that nothing overlaps: it never touches retrieval. */
  method RejectCorrection(queue: PendingCorrectionStore, id: nat) returns (r: Response)
    modifies queue
    ensures queue.rows == Resolved(old(queue.rows), id, Rejected, None)
    ensures |queue.rows| == |old(queue.rows)|
    ensures forall k :: 0 <= k < |queue.rows| ==>
              var was := old(queue.rows)[k];
              queue.rows[k] == if k == id && was.status == Pending then was.(status := Rejected, chunkId := None) else was
    ensures r == if id < |queue.rows| then Review(queue.rows[id].status) else NotFound
    ensures r.Review? ==> !r.status.Pending?
  {
    var row := queue.Get(id);
    if row.None? {
      return NotFound;
    }
    var changed := queue.Resolve(id, Rejected, None);
    return Review(if changed == Some(true) then Rejected else row.value.status);
  }
}
