/** The resumable event stream of an investigation (opsrag/api/routes_investigations.py, lines 173-205, over
    opsrag/investigations/store.py, lines 155-212; the client is ui/src/hooks/useInvestigationEvents.ts, lines 57-96).

    Events are their sequence numbers.  An append takes its number and commits in two steps, so commits need not come
    in the order of the numbers; every interleaving of appends by any number of writers, polls, status reads, frames
    arriving, lost connections and reconnects is a run. */
module EventTail {

  import opened Options

  datatype Phase = Ready | Polled(empty: bool) | Closed | TimedOut

  /** The generator behind one connection: what it has yielded, and the highest number among it. */
  datatype Conn = Conn(cursor: nat, polls: nat, phase: Phase, sent: seq<nat>)

  function Start(since: nat): Conn { Conn(since, 0, Ready, []) }

  function Last(from: nat, rows: seq<nat>): nat { if rows == [] then from else rows[|rows| - 1] }

  function AfterPoll(c: Conn, rows: seq<nat>): Conn {
    Conn(Last(c.cursor, rows), c.polls + 1, Polled(rows == []), c.sent + rows)
  }

  function AfterStatus(c: Conn, terminal: bool): Conn
    requires c.phase.Polled?
  {
    c.(phase := if terminal && c.phase.empty then Closed else if c.polls >= 60 then TimedOut else Ready)
  }

  ghost predicate Rising(from: nat, xs: seq<nat>) {
    && (forall i, j :: 0 <= i < j < |xs| ==> xs[i] < xs[j])
    && (forall i :: 0 <= i < |xs| ==> from < xs[i])
  }

  /** What `list_events_since` may return: the first 200 rows after the cursor, ascending. */
  ghost predicate IsPage(rows: seq<nat>, table: set<nat>, cursor: nat) {
    && Rising(cursor, rows) && |rows| <= 200
    && (forall n :: n in rows ==> n in table)
    && (forall n :: n in table && cursor < n && (|rows| < 200 || n <= Last(cursor, rows)) ==> n in rows)
  }

  datatype State = State(
    since: nat,
    next: nat,                 // the next sequence number, of all investigations
    pending: set<nat>,         // appends of this investigation that have a number but have not committed
    table: set<nat>,           // its committed rows
    terminal: bool,
    conn: Option<Conn>,
    got: nat,                  // how many frames of the connection have arrived
    atPoll: set<nat>,          // the table at the connection's last poll
    received: seq<nat>,        // all frames the client was ever handed
    late: set<nat>)            // rows that committed below the cursor

  function LastSeen(s: State): nat { Last(s.since, s.received) }

  /** Rows up to here are not polled for any more, unless the connection is lost. */
  function Reach(s: State): nat { if s.conn.Some? then s.conn.value.cursor else LastSeen(s) }

  function Wire(s: State): seq<nat> {
    if s.conn.Some? && s.got <= |s.conn.value.sent| then s.conn.value.sent[s.got..] else []
  }

  datatype Action = Begin(mine: bool) | Commit(n: nat) | Abort(n: nat) | Finish
                  | Connect | Poll(rows: seq<nat>) | Status | Receive | Lose

  function Initial(since: nat): State { State(since, 1, {}, {}, false, None, 0, {}, [], {}) }

  ghost predicate Enabled(s: State, a: Action) {
    match a
    case Begin(_) => true
    case Commit(n) => n in s.pending
    case Abort(n) => n in s.pending
    case Finish => true
    case Connect => s.conn.None?
    case Poll(rows) => s.conn.Some? && s.conn.value.phase.Ready? && IsPage(rows, s.table, s.conn.value.cursor)
    case Status => s.conn.Some? && s.conn.value.phase.Polled?
    case Receive => s.conn.Some? && s.got < |s.conn.value.sent|
    case Lose => s.conn.Some?
  }

  ghost function Step(s: State, a: Action): State
    requires Enabled(s, a)
  {
    match a
    case Begin(mine) => s.(next := s.next + 1, pending := if mine then s.pending + {s.next} else s.pending)
    case Commit(n) => s.(pending := s.pending - {n}, table := s.table + {n},
                         late := if n <= Reach(s) then s.late + {n} else s.late)
    case Abort(n) => s.(pending := s.pending - {n})
    case Finish => s.(terminal := true)
    case Connect => s.(conn := Some(Start(LastSeen(s))), got := 0, atPoll := {})
    case Poll(rows) => s.(conn := Some(AfterPoll(s.conn.value, rows)), atPoll := s.table)
    case Status => s.(conn := Some(AfterStatus(s.conn.value, s.terminal)))
    case Receive => s.(received := s.received + [s.conn.value.sent[s.got]], got := s.got + 1)
    case Lose => s.(conn := None, got := 0, late := set n | n in s.late && n <= LastSeen(s))
  }

  ghost function Run(s: State, actions: seq<Action>): State
    decreases |actions|
  {
    if actions == [] then s
    else
      var t, a := Run(s, actions[..|actions| - 1]), actions[|actions| - 1];
      if Enabled(t, a) then Step(t, a) else t
  }

  ghost function Tail(since: nat, actions: seq<Action>): State { Run(Initial(since), actions) }

  // ----- invariants -----

  /** Frames that arrived or are on their way are rising rows of the table, up to the cursor. */
  ghost predicate InOrder(s: State) {
    && Rising(s.since, s.received + Wire(s))
    && (s.conn.Some? ==> s.got <= |s.conn.value.sent| && s.conn.value.cursor == Last(s.since, s.received + Wire(s)))
  }

  ghost predicate Numbered(s: State) {
    && (forall n :: n in s.table ==> n < s.next)
    && (forall n :: n in s.pending ==> n < s.next && n !in s.table)
    && (forall n :: n in s.late ==> n in s.table && n <= Reach(s))
    && (forall n :: n in s.received + Wire(s) ==> n in s.table)
  }

  /** Up to the cursor, a row arrived or is on its way unless it came late. */
  ghost predicate Exact(s: State) {
    forall n :: n in s.table && s.since < n <= Reach(s) ==> (n in s.received + Wire(s) <==> n !in s.late)
  }

  /** An empty poll leaves nothing after the cursor. */
  ghost predicate PollSaw(s: State) {
    s.conn.Some? ==>
      && s.atPoll <= s.table
      && (s.conn.value.phase == Polled(true) || s.conn.value.phase.Closed? ==>
            forall n :: n in s.atPoll ==> n <= s.conn.value.cursor)
  }

  /** What the last poll did not see and is not after the cursor came late. */
  ghost predicate Unseen(s: State) {
    s.conn.Some? ==>
      && (s.conn.value.polls == 0 ==> s.conn.value.phase.Ready?)
      && (s.conn.value.polls > 0 ==>
            forall n :: n in s.table && n !in s.atPoll && n <= s.conn.value.cursor ==> n in s.late)
  }

  /** A connection makes 60 polls and no more, and closes only when the investigation has terminated. */
  ghost predicate Paced(s: State) {
    s.conn.Some? ==>
      && s.conn.value.polls <= 60
      && (s.conn.value.phase.Ready? ==> s.conn.value.polls < 60)
      && (s.conn.value.phase.TimedOut? ==> s.conn.value.polls == 60)
      && (s.conn.value.phase.Closed? ==> s.terminal)
  }

  ghost predicate Inv(s: State) { InOrder(s) && Numbered(s) && Exact(s) && PollSaw(s) && Unseen(s) && Paced(s) }

  lemma LastBounds(from: nat, xs: seq<nat>)
    requires Rising(from, xs)
    ensures from <= Last(from, xs) && forall n :: n in xs ==> from < n <= Last(from, xs)
  {
  }

  lemma RisingAppend(from: nat, xs: seq<nat>, ys: seq<nat>)
    requires Rising(from, xs) && Rising(Last(from, xs), ys)
    ensures Rising(from, xs + ys) && Last(from, xs + ys) == Last(Last(from, xs), ys)
  {
  }

  lemma RisingPrefix(from: nat, xs: seq<nat>, ys: seq<nat>)
    requires Rising(from, xs + ys)
    ensures Rising(from, xs) && Rising(Last(from, xs), ys)
  {
    assert forall i :: 0 <= i < |xs| ==> (xs + ys)[i] == xs[i];
    assert forall i :: 0 <= i < |ys| ==> (xs + ys)[|xs| + i] == ys[i];
  }

  lemma ReachBounds(s: State)
    requires InOrder(s)
    ensures s.since <= LastSeen(s) <= Reach(s)
    ensures forall n :: n in s.received ==> s.since < n <= LastSeen(s)
    ensures forall n :: n in Wire(s) ==> LastSeen(s) < n <= Reach(s)
  {
    var all := s.received + Wire(s);
    RisingPrefix(s.since, s.received, Wire(s));
    LastBounds(s.since, s.received);
    LastBounds(LastSeen(s), Wire(s));
    RisingAppend(s.since, s.received, Wire(s));
  }

  lemma PollInv(s: State, rows: seq<nat>)
    requires Inv(s) && Enabled(s, Poll(rows))
    ensures Inv(Step(s, Poll(rows)))
  {
    var t, c := Step(s, Poll(rows)), s.conn.value;
    ReachBounds(s);
    LastBounds(c.cursor, rows);
    assert Wire(t) == Wire(s) + rows;
    assert t.received + Wire(t) == s.received + Wire(s) + rows;
    RisingAppend(s.since, s.received + Wire(s), rows);
  }

  lemma ReceiveInv(s: State)
    requires Inv(s) && Enabled(s, Receive)
    ensures Inv(Step(s, Receive))
  {
    var t := Step(s, Receive);
    assert Wire(s) == [Wire(s)[0]] + Wire(t);
    assert t.received + Wire(t) == s.received + Wire(s);
  }

  lemma ConnectInv(s: State)
    requires Inv(s) && Enabled(s, Connect)
    ensures Inv(Step(s, Connect))
  {
    var t := Step(s, Connect);
    assert Wire(t) == Wire(s) == [];
  }

  lemma LoseInv(s: State)
    requires Inv(s) && Enabled(s, Lose)
    ensures Inv(Step(s, Lose))
  {
    var t := Step(s, Lose);
    ReachBounds(s);
    RisingPrefix(s.since, s.received, Wire(s));
    assert t.received + Wire(t) == s.received;
  }

  lemma LedgerInv(s: State, a: Action)
    requires Inv(s) && Enabled(s, a) && (a.Begin? || a.Commit? || a.Abort? || a.Finish? || a.Status?)
    ensures Inv(Step(s, a))
  {
    var t := Step(s, a);
    assert Wire(t) == Wire(s) && Reach(t) == Reach(s);
    ReachBounds(s);
  }

  lemma StepInv(s: State, a: Action)
    requires Inv(s) && Enabled(s, a)
    ensures Inv(Step(s, a))
  {
    match a
    case Poll(rows) => PollInv(s, rows);
    case Receive => ReceiveInv(s);
    case Connect => ConnectInv(s);
    case Lose => LoseInv(s);
    case _ => LedgerInv(s, a);
  }

  lemma {:induction false} RunInv(s: State, actions: seq<Action>)
    requires Inv(s)
    ensures Inv(Run(s, actions)) && Run(s, actions).since == s.since
    decreases |actions|
  {
    if actions != [] {
      var front, a := actions[..|actions| - 1], actions[|actions| - 1];
      RunInv(s, front);
      if Enabled(Run(s, front), a) {
        StepInv(Run(s, front), a);
      }
    }
  }

  lemma TailInv(since: nat, actions: seq<Action>)
    ensures Inv(Tail(since, actions)) && Tail(since, actions).since == since
  {
    RunInv(Initial(since), actions);
  }

  // ----- what the client receives -----

  /** In every run the client is handed a rising list, each row once: exactly the rows after `since` and up to the last
      one it has seen, but for those that committed below the cursor. */
  lemma Delivered(since: nat, actions: seq<Action>, n: nat)
    ensures var s := Tail(since, actions);
            && Rising(since, s.received)
            && (n in s.received <==> n in s.table && since < n <= LastSeen(s) && n !in s.late)
  {
    var s := Tail(since, actions);
    TailInv(since, actions);
    ReachBounds(s);
    RisingPrefix(since, s.received, Wire(s));
  }

  /** A row that came late and has been passed stays so. */
  lemma LateStep(s: State, a: Action, n: nat)
    requires Inv(s) && Enabled(s, a) && n in s.late && n <= LastSeen(s)
    ensures n in Step(s, a).late && n <= LastSeen(Step(s, a))
  {
    if a.Receive? {
      ReachBounds(s);
      assert Wire(s)[0] == s.conn.value.sent[s.got] && Wire(s)[0] in Wire(s);
    }
  }

  lemma LateNotReceived(s: State, n: nat)
    requires Inv(s) && n in s.late && s.since < n <= LastSeen(s)
    ensures n in s.table && n !in s.received
  {
    ReachBounds(s);
  }

  /** It is never delivered. */
  lemma {:induction false} LateIsLost(s: State, actions: seq<Action>, n: nat)
    requires Inv(s) && n in s.late && s.since < n <= LastSeen(s)
    ensures n in Run(s, actions).late && n <= LastSeen(Run(s, actions))
    ensures n in Run(s, actions).table && n !in Run(s, actions).received
    decreases |actions|
  {
    RunInv(s, actions);
    if actions != [] {
      var front, a := actions[..|actions| - 1], actions[|actions| - 1];
      LateIsLost(s, front, n);
      RunInv(s, front);
      if Enabled(Run(s, front), a) {
        LateStep(Run(s, front), a, n);
      }
    }
    LateNotReceived(Run(s, actions), n);
  }

  // ----- one writer at a time -----

  /** The investigation's own runner awaits each append before the next. */
  ghost predicate OneWriter(since: nat, actions: seq<Action>) {
    forall i :: 0 <= i < |actions| && actions[i] == Begin(true) ==> Tail(since, actions[..i]).pending == {}
  }

  /** With one writer at most one append is open, it has the highest number, and no row after `since` comes late. */
  ghost predicate Single(s: State) {
    && (forall n :: n in s.pending ==> s.pending == {n} && forall m :: m in s.table ==> m < n)
    && (forall n :: n in s.late ==> n <= s.since)
    && (Reach(s) == s.since || Reach(s) in s.table)
  }

  lemma SingleStep(s: State, a: Action)
    requires Inv(s) && Single(s) && Enabled(s, a) && (a == Begin(true) ==> s.pending == {})
    ensures Single(Step(s, a))
  {
    var t := Step(s, a);
    match a
    case Poll(rows) =>
      assert rows != [] ==> Last(s.conn.value.cursor, rows) in rows;
    case Lose =>
      ReachBounds(s);
      assert s.received != [] ==> s.received[|s.received| - 1] in s.received + Wire(s);
    case Connect =>
      assert Reach(t) == Reach(s);
    case _ =>
      assert Reach(t) == Reach(s);
  }

  lemma {:induction false} SingleRun(since: nat, actions: seq<Action>)
    requires OneWriter(since, actions)
    ensures Single(Tail(since, actions))
    decreases |actions|
  {
    if actions != [] {
      var front, a := actions[..|actions| - 1], actions[|actions| - 1];
      assert forall i :: 0 <= i < |front| ==> front[i] == actions[i] && front[..i] == actions[..i];
      assert OneWriter(since, front);
      SingleRun(since, front);
      TailInv(since, front);
      assert actions[|front|] == a && actions[..|front|] == front;
      if Enabled(Tail(since, front), a) {
        SingleStep(Tail(since, front), a);
      }
    }
  }

  /** With one writer the client is handed every row after `since` and up to the last one it has seen: no gap. */
  lemma GapFree(since: nat, actions: seq<Action>, n: nat)
    requires OneWriter(since, actions)
    ensures var s := Tail(since, actions);
            && Rising(since, s.received)
            && (n in s.received <==> n in s.table && since < n <= LastSeen(s))
  {
    Delivered(since, actions, n);
    SingleRun(since, actions);
    TailInv(since, actions);
  }

  // ----- closing -----

  /** In every run a closed connection belongs to a terminated investigation, and one that timed out made 60 polls. */
  lemma ClosedIsTerminal(since: nat, actions: seq<Action>)
    ensures var s := Tail(since, actions);
            s.conn.Some? ==>
              && s.conn.value.polls <= 60
              && (s.conn.value.phase.Closed? ==> s.terminal)
              && (s.conn.value.phase.TimedOut? ==> s.conn.value.polls == 60)
  {
    TailInv(since, actions);
  }

  /** A poll and the status read after it close the connection exactly if the poll was empty and the investigation has
      terminated; otherwise it polls on, unless that was its 60th poll. */
  lemma ClosesWhenDone(since: nat, actions: seq<Action>, rows: seq<nat>)
    requires Enabled(Tail(since, actions), Poll(rows))
    ensures var s := Tail(since, actions);
            var t := Step(s, Poll(rows));
            && Enabled(t, Status)
            && var phase := Step(t, Status).conn.value.phase;
               && (phase.Closed? <==> rows == [] && s.terminal)
               && (phase.TimedOut? <==> !(rows == [] && s.terminal) && s.conn.value.polls == 59)
               && (phase.Ready? <==> !(rows == [] && s.terminal) && s.conn.value.polls < 59)
  {
    TailInv(since, actions);
  }

  /** The server closes only when everything the last poll could see has been sent: of what that poll saw, the client
      has, or will get from this connection, all but late rows. */
  lemma CloseIsComplete(since: nat, actions: seq<Action>, n: nat)
    requires var s := Tail(since, actions); s.conn.Some? && s.conn.value.phase.Closed?
    ensures var s := Tail(since, actions);
            n in s.atPoll && n > since && n !in s.late ==> n in s.received + Wire(s)
  {
    TailInv(since, actions);
  }

  /** When all frames of a closed connection have arrived, what the client lacks are the late rows and those that
      committed after the last poll; these last are the ones after the cursor. */
  lemma ClosedLacks(since: nat, actions: seq<Action>, n: nat)
    requires var s := Tail(since, actions); s.conn.Some? && s.conn.value.phase.Closed? && Wire(s) == []
    ensures var s := Tail(since, actions);
            n in s.table && n > since ==>
              && (n !in s.received <==> n in s.late || n !in s.atPoll)
              && (n !in s.received <==> n in s.late || n > s.conn.value.cursor)
              && (n > s.conn.value.cursor ==> n !in s.atPoll)
  {
    var s := Tail(since, actions);
    TailInv(since, actions);
    ReachBounds(s);
    assert s.received + Wire(s) == s.received;
  }

  /** With one writer they are exactly those that committed after the last poll. */
  lemma ClosedLacksNewest(since: nat, actions: seq<Action>, n: nat)
    requires OneWriter(since, actions)
    requires var s := Tail(since, actions); s.conn.Some? && s.conn.value.phase.Closed? && Wire(s) == []
    ensures var s := Tail(since, actions);
            n in s.table && n > since ==> (n !in s.received <==> n !in s.atPoll)
  {
    ClosedLacks(since, actions, n);
    SingleRun(since, actions);
    TailInv(since, actions);
  }

  lemma {:induction false} RunSnoc(s: State, actions: seq<Action>, a: Action)
    ensures var t := Run(s, actions);
            Run(s, actions + [a]) == if Enabled(t, a) then Step(t, a) else t
  {
    assert (actions + [a])[..|actions|] == actions;
  }

  lemma Next(since: nat, actions: seq<Action>, a: Action) returns (more: seq<Action>)
    requires Enabled(Tail(since, actions), a)
    ensures more == actions + [a] && Tail(since, more) == Step(Tail(since, actions), a)
  {
    more := actions + [a];
    RunSnoc(Initial(since), actions, a);
  }

  lemma PageOfOne(n: nat)
    requires n > 0
    ensures IsPage([n], {n}, 0) && IsPage([], {}, n)
  {
    assert n in [n];
  }

  /** That there is one writer is needed, for the store alone does not keep the tail free of gaps: of two appends open at
      once 2 commits, is polled and arrives, and only then 1 commits. */
  lemma TwoWritersLose() returns (actions: seq<Action>)
    ensures 1 in Tail(0, actions).table
    ensures forall more :: 1 !in Run(Tail(0, actions), more).received
  {
    actions := Next(0, [], Begin(true));
    actions := Next(0, actions, Begin(true));
    actions := Next(0, actions, Commit(2));
    assert Tail(0, actions).table == {2};
    actions := Next(0, actions, Connect);
    PageOfOne(2);
    actions := Next(0, actions, Poll([2]));
    actions := Next(0, actions, Receive);
    actions := Next(0, actions, Commit(1));
    var s := Tail(0, actions);
    TailInv(0, actions);
    forall more ensures 1 !in Run(s, more).received {
      LateIsLost(s, more, 1);
    }
  }

  lemma NextByOne(since: nat, actions: seq<Action>, a: Action) returns (more: seq<Action>)
    requires OneWriter(since, actions) && Enabled(Tail(since, actions), a)
    requires a == Begin(true) ==> Tail(since, actions).pending == {}
    ensures OneWriter(since, more) && Tail(since, more) == Step(Tail(since, actions), a)
  {
    more := Next(since, actions, a);
    assert more[..|actions|] == actions;
    assert forall i :: 0 <= i < |actions| ==> more[i] == actions[i] && more[..i] == actions[..i];
  }

  /** A row that commits between the last poll and the status read is not sent before the close, even with one writer. */
  lemma CloseCanMiss() returns (actions: seq<Action>)
    ensures OneWriter(0, actions)
    ensures var s := Tail(0, actions);
            s.conn.Some? && s.conn.value.phase.Closed? && Wire(s) == [] && 1 in s.table && 1 !in s.received
  {
    actions := NextByOne(0, [], Begin(true));
    actions := NextByOne(0, actions, Connect);
    PageOfOne(1);
    assert Tail(0, actions).table == {} && Tail(0, actions).conn == Some(Start(0));
    actions := NextByOne(0, actions, Poll([]));
    assert Tail(0, actions).conn == Some(Conn(0, 1, Polled(true), []));
    actions := NextByOne(0, actions, Commit(1));
    actions := NextByOne(0, actions, Finish);
    actions := NextByOne(0, actions, Status);
  }

  // ----- draining -----

  ghost function Above(table: set<nat>, cursor: nat): set<nat> { set n | n in table && n > cursor }

  ghost function Elements(xs: seq<nat>): set<nat> { set n | n in xs }

  lemma {:induction false} RisingSize(from: nat, xs: seq<nat>)
    requires Rising(from, xs)
    ensures |Elements(xs)| == |xs|
  {
    if xs != [] {
      var front, x := xs[..|xs| - 1], xs[|xs| - 1];
      assert xs == front + [x];
      RisingPrefix(from, front, [x]);
      RisingSize(from, front);
      LastBounds(from, front);
      assert Elements(xs) == Elements(front) + {x} && x !in Elements(front);
    }
  }

  /** A poll takes what there is, at most 200 rows, off the backlog. */
  lemma PollTakes(rows: seq<nat>, table: set<nat>, cursor: nat)
    requires IsPage(rows, table, cursor)
    ensures |rows| == if |Above(table, cursor)| < 200 then |Above(table, cursor)| else 200
    ensures |Above(table, Last(cursor, rows))| == |Above(table, cursor)| - |rows|
  {
    LastBounds(cursor, rows);
    RisingSize(cursor, rows);
    var rest := Above(table, Last(cursor, rows));
    assert Above(table, cursor) == Elements(rows) + rest && Elements(rows) !! rest;
    if |rows| < 200 {
      assert rest == {};
    }
  }

  ghost function Backlog(s: State): nat { |Above(s.table, Reach(s))| }

  /** The client reads on, through as many connections as it takes, while nothing is appended. */
  predicate Reading(actions: seq<Action>) {
    forall i :: 0 <= i < |actions| ==>
      actions[i].Poll? || actions[i].Status? || actions[i].Receive? || actions[i].Connect? || actions[i].Lose?
  }

  /** How many polls a run makes, over all its connections. */
  ghost function Polls(s: State, actions: seq<Action>): nat
    decreases |actions|
  {
    if actions == [] then 0
    else
      var front, a := actions[..|actions| - 1], actions[|actions| - 1];
      Polls(s, front) + if a.Poll? && Enabled(Run(s, front), a) then 1 else 0
  }

  /** No connection ends with frames on the wire, as when the server ends it after its 60 polls. */
  ghost predicate EndsRead(s: State, actions: seq<Action>) {
    forall i :: 0 <= i < |actions| && actions[i].Lose? ==> Wire(Run(s, actions[..i])) == []
  }

  lemma {:induction false} EndsReadFront(s: State, actions: seq<Action>)
    requires actions != [] && EndsRead(s, actions)
    ensures var n := |actions| - 1;
            EndsRead(s, actions[..n]) && (actions[n].Lose? ==> Wire(Run(s, actions[..n])) == [])
  {
    var n := |actions| - 1;
    assert forall i :: 0 <= i < n ==> actions[..n][i] == actions[i] && actions[..n][..i] == actions[..i];
  }

  /** What a step makes of the backlog: a poll takes 200 rows off it, or all; a lost connection may put rows back. */
  lemma BacklogStep(s: State, a: Action)
    requires Inv(s) && Enabled(s, a) && Reading([a])
    ensures var t, n := Step(s, a), Backlog(s);
            && t.table == s.table
            && (a.Poll? ==> Backlog(t) == if n > 200 then n - 200 else 0)
            && (a.Lose? ==> Backlog(t) >= n && (Wire(s) == [] ==> Backlog(t) == n))
            && (!a.Poll? && !a.Lose? ==> Backlog(t) == n)
  {
    var t := Step(s, a);
    assert [a][0] == a;
    ReachBounds(s);
    if a.Poll? {
      PollTakes(a.rows, s.table, s.conn.value.cursor);
    } else if a.Lose? {
      LargerBacklog(s.table, LastSeen(s), Reach(s));
      if Wire(s) == [] {
        assert s.received + Wire(s) == s.received;
      }
    }
  }

  lemma LargerBacklog(table: set<nat>, low: nat, high: nat)
    requires low <= high
    ensures |Above(table, low)| >= |Above(table, high)|
  {
    assert Above(table, low) == Above(table, high) + set n | n in table && low < n <= high;
  }

  /** Without new rows each poll takes 200 off the backlog, reconnects included, and only lost frames put any back ... */
  lemma {:induction false} Drains(s: State, actions: seq<Action>)
    requires Inv(s) && Reading(actions)
    ensures var t, taken := Run(s, actions), 200 * Polls(s, actions);
            && t.table == s.table
            && Backlog(t) >= (if Backlog(s) > taken then Backlog(s) - taken else 0)
            && (EndsRead(s, actions) ==> Backlog(t) == if Backlog(s) > taken then Backlog(s) - taken else 0)
    decreases |actions|
  {
    if actions != [] {
      var n := |actions| - 1;
      var front, a := actions[..n], actions[n];
      assert forall i :: 0 <= i < n ==> front[i] == actions[i];
      Drains(s, front);
      RunInv(s, front);
      if EndsRead(s, actions) {
        EndsReadFront(s, actions);
      }
      if Enabled(Run(s, front), a) {
        BacklogStep(Run(s, front), a);
      }
    }
  }

  function Pages(n: nat): nat { (n + 199) / 200 }

  /** ... so a backlog of n rows has never been sent before ceil(n / 200) polls, and has been after as many if no frames
      were lost. */
  lemma {:induction false} DrainsInPages(s: State, actions: seq<Action>)
    requires Inv(s) && Reading(actions)
    ensures var t := Run(s, actions);
            && (Backlog(t) == 0 ==> Polls(s, actions) >= Pages(Backlog(s)))
            && (EndsRead(s, actions) && Polls(s, actions) >= Pages(Backlog(s)) ==> Backlog(t) == 0)
            && (Backlog(t) == 0 ==> forall n :: n in s.table && n > s.since && n !in t.late ==> n in t.received + Wire(t))
  {
    Drains(s, actions);
    RunInv(s, actions);
    var t := Run(s, actions);
    if Backlog(t) == 0 {
      assert forall n :: n in t.table && n > Reach(t) ==> n in Above(t.table, Reach(t));
    }
  }

  // ----- the generator -----

  datatype Frame = Event(n: nat) | CloseFrame

  function Events(rows: seq<nat>): (frames: seq<Frame>)
    ensures |frames| == |rows| && forall i :: 0 <= i < |rows| ==> frames[i] == Event(rows[i])
  {
    seq(|rows|, i requires 0 <= i < |rows| => Event(rows[i]))
  }

  /** The connection after some rounds of a poll and a status read. */
  function Rounds(since: nat, pages: seq<seq<nat>>, terminal: seq<bool>): (c: Conn)
    requires |pages| <= |terminal|
    decreases |pages|
  {
    if pages == [] then Start(since)
    else AfterStatus(AfterPoll(Rounds(since, pages[..|pages| - 1], terminal), pages[|pages| - 1]), terminal[|pages| - 1])
  }

  /** Stands for the query of `list_events_since` on the investigation's rows. */
  method ListEventsSince(table: seq<nat>, since: nat) returns (rows: seq<nat>)
    requires Ascending(table)
    ensures IsPage(rows, Elements(table), since)
  {
    rows := [];
    var i := 0;
    while i < |table| && |rows| < 200
      invariant i <= |table| && |rows| <= 200 && Rising(since, rows)
      invariant forall n :: n in rows ==> n in table && (i < |table| ==> n < table[i])
      invariant forall k :: 0 <= k < i && table[k] > since ==> table[k] in rows
      invariant forall k :: i <= k < |table| ==> Last(since, rows) < table[k] || table[k] <= since
    {
      if table[i] > since {
        rows := rows + [table[i]];
      }
      i := i + 1;
    }
    LastBounds(since, rows);
    forall n | n in Elements(table) && since < n && (|rows| < 200 || n <= Last(since, rows)) ensures n in rows {
      var k :| 0 <= k < |table| && table[k] == n;
    }
  }

  ghost predicate Ascending(table: seq<nat>) { forall i, j :: 0 <= i < j < |table| ==> table[i] < table[j] }

  /** One page's frames. */
  method Yield(before: seq<Frame>, cursor: nat, rows: seq<nat>, ghost sent: seq<nat>)
    returns (frames: seq<Frame>, after: nat)
    requires before == Events(sent)
    ensures frames == Events(sent + rows) && after == Last(cursor, rows)
  {
    frames, after := before, cursor;
    for i := 0 to |rows|
      invariant frames == Events(sent + rows[..i]) && after == Last(cursor, rows[..i])
    {
      after := rows[i];
      frames := frames + [Event(rows[i])];
    }
    assert rows[..|rows|] == rows;
  }

  /** The rows of these pages, one page after the other. */
  function Flat(pages: seq<seq<nat>>): seq<nat> {
    if pages == [] then [] else Flat(pages[..|pages| - 1]) + pages[|pages| - 1]
  }

  lemma {:induction false} FlatSnoc(pages: seq<seq<nat>>, page: seq<nat>, since: nat)
    ensures Flat(pages + [page]) == Flat(pages) + page
    ensures Last(since, Flat(pages + [page])) == Last(Last(since, Flat(pages)), page)
  {
    assert (pages + [page])[..|pages|] == pages;
  }

  /** Page `k` is the first rows of `tables[k]` after those of the pages before it. */
  ghost predicate NextPage(since: nat, pages: seq<seq<nat>>, tables: seq<seq<nat>>, k: nat)
    requires k < |pages| && k < |tables|
  {
    IsPage(pages[k], Elements(tables[k]), Last(since, Flat(pages[..k])))
  }

  ghost predicate PagesRight(since: nat, pages: seq<seq<nat>>, tables: seq<seq<nat>>) {
    |pages| <= |tables| && forall k :: 0 <= k < |pages| ==> NextPage(since, pages, tables, k)
  }

  /** None of the first `n` rounds saw an empty page and then a terminated investigation. */
  predicate PolledOn(pages: seq<seq<nat>>, terminal: seq<bool>, n: int)
    requires n <= |pages| && n <= |terminal|
  {
    forall k :: 0 <= k < n ==> pages[k] != [] || !terminal[k]
  }

  lemma {:induction false} PagesSnoc(since: nat, pages: seq<seq<nat>>, page: seq<nat>, tables: seq<seq<nat>>,
                                     terminal: seq<bool>)
    requires PagesRight(since, pages, tables) && |pages| < |tables| && |pages| < |terminal|
    requires PolledOn(pages, terminal, |pages|)
    requires IsPage(page, Elements(tables[|pages|]), Last(since, Flat(pages)))
    ensures PagesRight(since, pages + [page], tables) && PolledOn(pages + [page], terminal, |pages|)
  {
    var more := pages + [page];
    forall k | 0 <= k < |more| ensures NextPage(since, more, tables, k) {
      assert more[..k] == pages[..k];
      assert k < |pages| ==> NextPage(since, pages, tables, k);
      assert k == |pages| ==> pages[..k] == pages;
    }
  }

  /** So the generator is the server's side of the protocol: after these rounds its connection is as the steps leave it. */
  lemma {:induction false} RoundsAre(since: nat, pages: seq<seq<nat>>, terminal: seq<bool>)
    requires |pages| <= 60 && |pages| <= |terminal| && PolledOn(pages, terminal, |pages| - 1)
    ensures var c := Rounds(since, pages, terminal);
            && c.cursor == Last(since, Flat(pages)) && c.polls == |pages| && c.sent == Flat(pages)
            && c.phase == if pages == [] then Ready
                          else if pages[|pages| - 1] == [] && terminal[|pages| - 1] then Closed
                          else if |pages| == 60 then TimedOut
                          else Ready
    decreases |pages|
  {
    if pages != [] {
      var front, page := pages[..|pages| - 1], pages[|pages| - 1];
      assert PolledOn(front, terminal, |front|) by {
        assert forall k :: 0 <= k < |front| ==> front[k] == pages[k];
      }
      RoundsAre(since, front, terminal);
      assert pages == front + [page];
      FlatSnoc(front, page, since);
    }
  }

  /** `_gen`: poll k sees `tables[k]`, and the status read after it `terminal[k]`.  It ends with the close frame after the
      first empty page of a terminated investigation, or without one after its 60 polls, having yielded the rows of all
      pages in order. */
  method Gen(since: nat, tables: seq<seq<nat>>, terminal: seq<bool>)
    returns (frames: seq<Frame>, pages: seq<seq<nat>>)
    requires |tables| == |terminal| == 60 && forall k :: 0 <= k < 60 ==> Ascending(tables[k])
    ensures 0 < |pages| <= 60 && PagesRight(since, pages, tables) && PolledOn(pages, terminal, |pages| - 1)
    ensures var closes := pages[|pages| - 1] == [] && terminal[|pages| - 1];
            && frames == Events(Flat(pages)) + (if closes then [CloseFrame] else [])
            && (!closes ==> |pages| == 60)
    ensures var c := Rounds(since, pages, terminal);
            && (c.phase.Closed? || c.phase.TimedOut?)
            && frames == Events(c.sent) + if c.phase.Closed? then [CloseFrame] else []
  {
    frames, pages := [], [];
    var cursor := since;
    for poll := 0 to 60
      invariant |pages| == poll && PagesRight(since, pages, tables) && PolledOn(pages, terminal, poll)
      invariant frames == Events(Flat(pages)) && cursor == Last(since, Flat(pages))
    {
      var rows := ListEventsSince(tables[poll], cursor);
      frames, cursor := Yield(frames, cursor, rows, Flat(pages));
      FlatSnoc(pages, rows, since);
      PagesSnoc(since, pages, rows, tables, terminal);
      pages := pages + [rows];
      if terminal[poll] && rows == [] {
        frames := frames + [CloseFrame];
        RoundsAre(since, pages, terminal);
        return;
      }
    }
    RoundsAre(since, pages, terminal);
  }
}
