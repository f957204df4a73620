/** What holds of the answer cache over whole runs of turns (opsrag/agent/graph.py, lines 812-1002 and 1198-1252). */
module CacheRuns {

  import AnswerQuality
  import CacheJudge
  import opened Options
  import opened SemanticCache
  import opened CacheGates

  ghost function LogOf(w: World, actions: seq<Action>): seq<Event> { Run(w, EMPTY, actions).log }

  ghost predicate ServedAt(w: World, actions: seq<Action>, n: nat) {
    n < |LogOf(w, actions)| && LogOf(w, actions)[n].Served?
  }

  /** The look that found what the n-th event serves. */
  lemma ServedWasFound(w: World, actions: seq<Action>, n: nat) returns (m: nat)
    requires ServedAt(w, actions, n)
    ensures var log := LogOf(w, actions);
            && m == log[n].look < n && log[m].Found?
            && FoundRight(w, log[..m], log[m].hit, log[m].turn, log[m].now)
            && JudgeAllows(w, log[m].turn, log[m].hit, log[n].reply)
  {
    RunInv(w, actions);
    var log := LogOf(w, actions);
    m := log[n].look;
    assert EventRight(w, log, n) && EventRight(w, log, m);
  }

  /** The turn may use the cache: it has an embedding and no image, no rule or category skips the cache for it, and the
      cache is not switched off. */
  predicate MayAsk(w: World, turn: Turn) {
    && turn.embedding.Some? && !turn.images && !w.shouldSkip(turn.query) && !w.disabled
    && turn.category != Some(Live) && turn.category != Some(Casual)
  }

  /** All that an entry must be to reach a turn: shared or the user's own, over the floor, not flagged, equal in
      discriminators, in time or not too stale for a turn that takes stale answers, and not degenerate. */
  ghost predicate Passes(w: World, e: Entry, turn: Turn, now: real) {
    && MayAsk(w, turn)
    && (e.scope == None || (e.scope == Some(w.nameOf(turn.person)) && w.nameOf(turn.person) != ""))
    && w.env.score(turn.embedding.value, e.embedding)
       >= (if turn.category.Some? then PolicyFor(turn.category.value).threshold else w.env.threshold)
    && !e.low
    && w.env.discriminators(turn.query) == w.env.discriminators(e.question)
    && (e.createdAt == 0.0 || now - e.createdAt <= e.ttl as real
        || (turn.serveStale.Or(Some(w.swrDefault)).value && now - e.createdAt - e.ttl as real <= 604800.0))
    && !AnswerQuality.Degenerate(w.env.alphabet, e.answer)
  }

  /** In every run a look finds something if and only if nothing breaks and the best point its user may see passes; and
      otherwise the turn goes on to answer. */
  lemma {:induction false} FoundExactly(w: World, actions: seq<Action>, t: nat, turn: Turn, top: Option<string>,
                                        now: real, broken: bool)
    requires Enabled(w, Run(w, EMPTY, actions), Look(t, turn, top, now, broken))
    ensures var s, u := Run(w, EMPTY, actions), Run(w, EMPTY, actions + [Look(t, turn, top, now, broken)]);
            && (MayAsk(w, turn) ==> TopOf(w.env, s.cache.entries, QueryOf(w, turn), top))
            && u.cache.entries == s.cache.entries
            && if !broken && MayAsk(w, turn) && top.Some? && top.value in s.cache.entries
                  && Passes(w, s.cache.entries[top.value], turn, now) then
                 var e := s.cache.entries[top.value];
                 var score := w.env.score(turn.embedding.value, e.embedding);
                 && u.log == s.log + [Found(Hit(top.value, e, score, e.createdAt != 0.0 && now - e.createdAt > e.ttl as real),
                                            turn, now)]
                 && t in u.judging && u.judging[t] == |s.log|
               else u.log == s.log && t in u.waiting && u.waiting[t] == turn
  {
    var _ := Take(w, actions, Look(t, turn, top, now, broken));
  }

  /** What may be seen is never nearer than what is found. */
  lemma {:induction false} FoundIsNearest(w: World, actions: seq<Action>, t: nat, turn: Turn, id: string, now: real,
                                          other: string)
    requires Enabled(w, Run(w, EMPTY, actions), Look(t, turn, Some(id), now, false)) && MayAsk(w, turn)
    requires other in Run(w, EMPTY, actions).cache.entries
    ensures var c := Run(w, EMPTY, actions).cache;
            && id in c.entries
            && var scope := c.entries[other].scope;
               (scope == None || (scope == Some(w.nameOf(turn.person)) && w.nameOf(turn.person) != "")) ==>
                 w.env.score(turn.embedding.value, c.entries[other].embedding)
                 <= w.env.score(turn.embedding.value, c.entries[id].embedding)
  {
  }

  /** In every run the judge's word is final: a hit is served unless the gate breaks or the judge refuses it, a stale one
      starts a revalidation, and a turn that is not served goes on to answer. */
  lemma {:induction false} JudgedExactly(w: World, actions: seq<Action>, t: nat, reply: CacheJudge.Reply, broken: bool)
    requires Enabled(w, Run(w, EMPTY, actions), Judge(t, reply, broken))
    ensures var s, u := Run(w, EMPTY, actions), Run(w, EMPTY, actions + [Judge(t, reply, broken)]);
            var look := s.judging[t];
            var turn, hit := s.log[look].turn, s.log[look].hit;
            var floor := if turn.category.Some? then Some(PolicyFor(turn.category.value).threshold) else None;
            var c := CacheJudge.Case(turn.query, hit.entry.question, hit.similarity, floor, turn.bound);
            && u.cache == s.cache && t !in u.judging
            && if !broken && CacheJudge.Allowed(w.judgeEnv, w.judge, w.norm, c, reply)
               then u.log == s.log + [Served(look, reply)] && u.waiting == s.waiting
                    && u.spawned == s.spawned + (if hit.isStale then [turn] else [])
               else u.log == s.log && u.spawned == s.spawned && u.waiting == s.waiting[t := turn]
  {
    var _ := Take(w, actions, Judge(t, reply, broken));
  }

  /** In every run, whatever is served to a turn was found by an earlier look of that turn, and was at that look in the
      cache: written by an earlier turn, and since then not replaced, flagged, invalidated, purged or emptied.  It was
      shared or the asking user's own, over the floor, equal in discriminators, not degenerate, and in time or marked
      stale; and the writing turn had no image, took no tool path and was not found ungrounded. */
  lemma ServedSound(w: World, actions: seq<Action>, n: nat) returns (k: nat, m: nat)
    requires ServedAt(w, actions, n)
    ensures var log := LogOf(w, actions);
            && k < m == log[n].look < n && log[m].Found? && log[k].Wrote?
            && var hit, turn := log[m].hit, log[m].turn;
               && log[k].id == hit.id && log[k].entry == hit.entry
               && WroteRight(w, hit.id, hit.entry, log[k].turn, log[k].outcome)
               && (forall j :: k < j < m ==> !Removes(w.env, log[j], hit.id, hit.entry) && log[j] != FlaggedLow(hit.id))
               && Passes(w, hit.entry, turn, log[m].now)
               && hit.similarity == w.env.score(turn.embedding.value, hit.entry.embedding)
               && (hit.isStale <==> hit.entry.createdAt != 0.0
                                    && log[m].now - hit.entry.createdAt > hit.entry.ttl as real)
  {
    m := ServedWasFound(w, actions, n);
    var log := LogOf(w, actions);
    var hit := log[m].hit;
    k :| WrittenAt(w.env, log[..m], k, hit.id, hit.entry);
    RunInv(w, actions);
    assert EventRight(w, log, k);
    assert hit.entry.(low := false) == hit.entry;
    forall j | k < j < m ensures !Removes(w.env, log[j], hit.id, hit.entry) && log[j] != FlaggedLow(hit.id) {
      assert Spares(w.env, log[..m][j], hit.id, hit.entry);
    }
  }

  // ----- between the look and the serve -----

  /** Nothing since the look has removed or flagged what it found. */
  ghost predicate Untouched(env: Env, log: seq<Event>, look: nat, id: string, e: Entry) {
    forall j :: look < j < |log| ==> !Removes(env, log[j], id, e) && log[j] != FlaggedLow(id)
  }

  /** While a hit is before the judge it is in the cache exactly if nothing since the look has removed or flagged it, or
      an equal entry was written again since. */
  lemma {:induction false} FoundStillCached(w: World, actions: seq<Action>, t: nat)
    requires t in Run(w, EMPTY, actions).judging
    ensures var s := Run(w, EMPTY, actions);
            var m := s.judging[t];
            && FoundAt(s.log, m)
            && var hit := s.log[m].hit;
               Holds(s.cache, hit.id, hit.entry) <==>
                 || Untouched(w.env, s.log, m, hit.id, hit.entry)
                 || exists k :: k > m && WrittenAt(w.env, s.log, k, hit.id, hit.entry)
  {
    RunInv(w, actions);
    var s := Run(w, EMPTY, actions);
    var m := s.judging[t];
    var id, e := s.log[m].hit.id, s.log[m].hit.entry;
    assert EventRight(w, s.log, m);
    if Holds(s.cache, id, e) {
      var k: nat :| WrittenAt(w.env, s.log, k, id, e);
      assert k != m;
      assert forall j :: k < j < |s.log| ==> Spares(w.env, s.log[j], id, e);
    }
    if Untouched(w.env, s.log, m, id, e) {
      StillBacked(w.env, s.log, m, id, e);
    }
    assert Backed(w.env, s.log, id, e) ==> Holds(s.cache, id, e);
  }

  lemma StillBacked(env: Env, log: seq<Event>, m: nat, id: string, e: Entry)
    requires FoundAt(log, m) && Backed(env, log[..m], id, e) && Untouched(env, log, m, id, e)
    ensures Backed(env, log, id, e)
  {
    var k: nat :| WrittenAt(env, log[..m], k, id, e);
    forall j | k < j < |log| ensures Spares(env, log[j], id, e) {
      if j < m {
        assert Spares(env, log[..m][j], id, e);
      }
    }
    assert WrittenAt(env, log, k, id, e);
  }

  // ----- who is served -----

  /** No turn is served that has an image or is classified live or casual. */
  lemma NeverServed(w: World, actions: seq<Action>, n: nat)
    requires ServedAt(w, actions, n)
    ensures var log := LogOf(w, actions);
            && FoundAt(log, log[n].look)
            && var turn := log[log[n].look].turn;
               && !turn.images && !w.shouldSkip(turn.query) && !w.disabled
               && turn.category != Some(Live) && turn.category != Some(Casual)
  {
    var _ := ServedWasFound(w, actions, n);
  }

  /** With the judge on and a model bound, a hit on a different text in the band was neither found different nor served
      on a failure of the judge, unless that fails open. */
  lemma JudgedHits(w: World, actions: seq<Action>, n: nat)
    requires ServedAt(w, actions, n)
    ensures var log := LogOf(w, actions);
            && FoundAt(log, log[n].look)
            && var m, reply := log[n].look, log[n].reply;
               var c := CaseOf(log[m].turn, log[m].hit);
               && c.cosine >= (if MinScore(log[m].turn).Some? then MinScore(log[m].turn).value else w.env.threshold)
               && (CacheJudge.Asked(w.judgeEnv, w.judge, w.norm, c) ==>
                     if reply.Fails? then CacheJudge.FailOpen(w.judgeEnv, w.judge) else reply.same || !reply.different)
  {
    var _ := ServedWasFound(w, actions, n);
  }

  /** Every stale answer starts one revalidation, and a revalidation is never served a stale answer, so it starts none. */
  lemma {:induction false} RevalidationsEnd(w: World, actions: seq<Action>, n: nat)
    requires ServedAt(w, actions, n)
    ensures var s := Run(w, EMPTY, actions);
            && |s.spawned| == StaleServes(s.log)
            && (forall k :: 0 <= k < |s.spawned| ==> s.spawned[k].revalidates.None?)
            && FoundAt(s.log, s.log[n].look)
            && var m := s.log[n].look;
               s.log[m].turn.revalidates.Some? ==> !s.log[m].hit.isStale && !Expired(s.log[m].hit.entry, s.log[m].now)
  {
    RunInv(w, actions);
    var _ := ServedWasFound(w, actions, n);
  }

  // ----- runs of two turns -----

  lemma Take(w: World, actions: seq<Action>, a: Action) returns (more: seq<Action>)
    requires Enabled(w, Run(w, EMPTY, actions), a)
    ensures more == actions + [a] && Run(w, EMPTY, more) == Step(w, Run(w, EMPTY, actions), a)
  {
    more := actions + [a];
    assert more[..|actions|] == actions;
  }

  /** A turn whose answer is written if it gives this outcome. */
  ghost predicate Teaches(w: World, first: Turn, o: Outcome) {
    && first.revalidates.None? && Writes(w, first, o, false)
    && (o.memories ==> Remembered(UserOf(w, first)))
  }

  ghost function EntryOf(w: World, first: Turn, o: Outcome, now: real): Entry
    requires first.embedding.Some?
  {
    Made(w.env, WriteOf(w, first, o), now)
  }

  function IdOf(w: World, first: Turn, o: Outcome): string {
    PointId(w.env, first.query, if o.memories then UserOf(w, first) else "")
  }

  /** The state after one turn has asked and answered. */
  ghost function Taught(w: World, first: Turn, o: Outcome, now: real): State
    requires first.embedding.Some?
  {
    var id, e := IdOf(w, first, o), EntryOf(w, first, o, now);
    State(Collection(map[id := e], true, true), map[], map[], [], [Wrote(id, e, first, o)])
  }

  lemma FirstLook(w: World, first: Turn, now: real)
    requires first.revalidates.None?
    ensures Enabled(w, EMPTY, Look(0, first, None, now, false))
    ensures var s := AfterLook(w, EMPTY, 0, first, None, now, false);
            && s.waiting == map[0 := first] && s.judging == map[] && s.spawned == [] && s.log == []
            && s.cache.entries == map[] && (s.cache.ensured ==> s.cache.present)
  {
  }

  lemma FirstAnswer(w: World, s: State, first: Turn, o: Outcome, now: real)
    requires Teaches(w, first, o)
    requires s.waiting == map[0 := first] && s.judging == map[] && s.spawned == [] && s.log == []
    requires s.cache.entries == map[] && (s.cache.ensured ==> s.cache.present)
    ensures AfterAnswer(w, s, 0, o, now, false) == Taught(w, first, o, now)
  {
    assert s.waiting - {0} == map[];
  }

  lemma Teach(w: World, first: Turn, o: Outcome, now: real) returns (actions: seq<Action>)
    requires Teaches(w, first, o)
    ensures Run(w, EMPTY, actions) == Taught(w, first, o, now)
  {
    FirstLook(w, first, now);
    assert Run(w, EMPTY, []) == EMPTY;
    actions := Take(w, [], Look(0, first, None, now, false));
    FirstAnswer(w, Run(w, EMPTY, actions), first, o, now);
    actions := Take(w, actions, Answer(0, o, now, false));
  }

  /** The entry passes all checks for the turn. */
  ghost predicate Gets(w: World, e: Entry, turn: Turn, now: real) {
    Asks(w, turn) && Visible(e, UserOf(w, turn)) && Accepts(w.env, e, QueryOf(w, turn), now)
  }

  function TopFor(w: World, id: string, e: Entry, turn: Turn): Option<string> {
    if Visible(e, UserOf(w, turn)) then Some(id) else None
  }

  /** The second turn looks at the only entry there is. */
  lemma SecondLook(w: World, s: State, id: string, e: Entry, second: Turn, at: real)
    requires s.cache.entries == map[id := e] && second.revalidates.None? && s.waiting == map[] && s.judging == map[]
    ensures var top := TopFor(w, id, e, second);
            && Enabled(w, s, Look(1, second, top, at, false))
            && var t := AfterLook(w, s, 1, second, top, at, false);
               && t.cache.entries == s.cache.entries
               && if Gets(w, e, second, at) then
                    && t.judging == map[1 := |s.log|] && |t.log| == |s.log| + 1 && t.log[..|s.log|] == s.log
                    && FoundAt(t.log, |s.log|) && t.log[|s.log|].turn == second && t.log[|s.log|].now == at
                    && t.log[|s.log|].hit.id == id && t.log[|s.log|].hit.entry == e
                  else t.log == s.log && t.judging == map[]
  {
    if Asks(w, second) && Visible(e, UserOf(w, second)) {
      assert IsTop(w.env, s.cache.entries, QueryOf(w, second), id);
    }
  }

  /** One turn teaches the cache, then another asks it: the second is served what the first answered exactly if it may
      ask, may see the entry and finds it acceptable, and the judge agrees. */
  lemma TwoTurns(w: World, first: Turn, o: Outcome, now: real, second: Turn, at: real, reply: CacheJudge.Reply)
    returns (actions: seq<Action>)
    requires Teaches(w, first, o) && second.revalidates.None?
    ensures var log, e := LogOf(w, actions), EntryOf(w, first, o, now);
            && |log| >= 1 && log[0] == Wrote(IdOf(w, first, o), e, first, o)
            && (|log| > 1 <==> Gets(w, e, second, at))
            && (|log| > 1 ==> log[1].Found? && log[1].turn == second && log[1].hit.entry == e && log[1].now == at
                              && log[1].hit.id == IdOf(w, first, o))
            && (ServedAt(w, actions, 2) <==> |log| > 1 && JudgeAllows(w, second, log[1].hit, reply))
            && (ServedAt(w, actions, 2) ==> log[2].look == 1)
  {
    actions := Teach(w, first, o, now);
    var s, id, e := Taught(w, first, o, now), IdOf(w, first, o), EntryOf(w, first, o, now);
    SecondLook(w, s, id, e, second, at);
    actions := Take(w, actions, Look(1, second, TopFor(w, id, e, second), at, false));
    if Gets(w, e, second, at) {
      actions := Take(w, actions, Judge(1, reply, false));
    }
  }

  // ----- turns of the categories that skip the cache -----

  predicate Skips(turn: Turn) { turn.category.Some? && PolicyFor(turn.category.value).skip }

  /** In every run the answer of a waiting turn is written exactly if the turn has an embedding and no image, and the
      answer is there, not degenerate, not found ungrounded and not off the tool path; the category plays no part in
      that.  What is written is what was asked and answered, from then on, private exactly if memories went into it. */
  lemma {:induction false} AnswerWrites(w: World, actions: seq<Action>, t: nat, o: Outcome, now: real, broken: bool)
    requires Enabled(w, Run(w, EMPTY, actions), Answer(t, o, now, broken))
    ensures var s, log := Run(w, EMPTY, actions), LogOf(w, actions + [Answer(t, o, now, broken)]);
            var turn := s.waiting[t];
            && t !in Run(w, EMPTY, actions + [Answer(t, o, now, broken)]).waiting
            && s.log <= log
            && if !broken && turn.embedding.Some? && !turn.images && turn.query != "" && o.answer != ""
                  && !AnswerQuality.Degenerate(w.env.alphabet, o.answer) && !(o.groundedFalse && o.checked) && !o.toolPath
               then
                 && |log| == |s.log| + 1 && log[|s.log|].Wrote? && log[|s.log|].turn == turn && log[|s.log|].outcome == o
                 && var e := log[|s.log|].entry;
                    && e.question == turn.query && e.answer == o.answer && Some(e.embedding) == turn.embedding
                    && e.repos == w.env.deriveRepos(o.sources) && e.createdAt == now && !e.low
                    && e.scope == (if o.memories && w.nameOf(turn.person) != "" then Some(w.nameOf(turn.person)) else None)
                    && e.ttl == (if turn.category.Some? && PolicyFor(turn.category.value).ttl != 0
                                 then PolicyFor(turn.category.value).ttl else w.env.defaultTtl)
               else log == s.log
  {
    var _ := Take(w, actions, Answer(t, o, now, broken));
  }

  /** The j-th action answers a turn, passes the gate, and finds `n` events in the log. */
  ghost predicate PassesAt(w: World, actions: seq<Action>, j: nat, n: nat) {
    && j < |actions| && actions[j].Answer? && Enabled(w, Run(w, EMPTY, actions[..j]), actions[j])
    && var s, o := Run(w, EMPTY, actions[..j]), actions[j].outcome;
       var turn := s.waiting[actions[j].t];
       && |s.log| == n && MayStore(turn, o) && !actions[j].broken && Cacheable(w.env, WriteOf(w, turn, o))
  }

  lemma StepLog(w: World, s: State, a: Action)
    requires Enabled(w, s, a)
    ensures var log := Step(w, s, a).log;
            && s.log <= log && |log| <= |s.log| + 1
            && (|log| > |s.log| && log[|s.log|].Wrote? <==>
                  && a.Answer? && MayStore(s.waiting[a.t], a.outcome) && !a.broken
                  && Cacheable(w.env, WriteOf(w, s.waiting[a.t], a.outcome)))
  {
  }

  lemma PassesBefore(w: World, actions: seq<Action>, j: nat, n: nat)
    requires j < |actions| - 1
    ensures PassesAt(w, actions, j, n) <==> PassesAt(w, actions[..|actions| - 1], j, n)
  {
    assert actions[..|actions| - 1][..j] == actions[..j];
  }

  /** The last action passes exactly if it adds a write to the log. */
  lemma PassesLast(w: World, actions: seq<Action>, n: nat)
    requires actions != []
    ensures var m := |actions| - 1;
            var log, was := LogOf(w, actions), LogOf(w, actions[..m]);
            && was <= log && |log| <= |was| + 1
            && (PassesAt(w, actions, m, n) <==> n == |was| < |log| && log[n].Wrote?)
  {
    var m := |actions| - 1;
    var s := Run(w, EMPTY, actions[..m]);
    if Enabled(w, s, actions[m]) {
      StepLog(w, s, actions[m]);
    }
  }

  /** So in every run the writes in the log are exactly the answers that passed the gate, each where the log then
      ended. */
  lemma {:induction false} WritesExactly(w: World, actions: seq<Action>, n: nat)
    ensures n < |LogOf(w, actions)| && LogOf(w, actions)[n].Wrote? <==> exists j :: PassesAt(w, actions, j, n)
    decreases |actions|
  {
    if actions != [] {
      var m := |actions| - 1;
      WritesExactly(w, actions[..m], n);
      PassesLast(w, actions, n);
      forall j: nat | j < m ensures PassesAt(w, actions, j, n) <==> PassesAt(w, actions[..m], j, n) {
        PassesBefore(w, actions, j, n);
      }
    }
  }

  /** Those of turns that skip the cache all have the default time to live. */
  lemma SkippedTtl(w: World, actions: seq<Action>, n: nat)
    requires n < |LogOf(w, actions)| && LogOf(w, actions)[n].Wrote? && Skips(LogOf(w, actions)[n].turn)
    ensures LogOf(w, actions)[n].entry.ttl == w.env.defaultTtl
  {
    RunInv(w, actions);
    assert EventRight(w, LogOf(w, actions), n);
  }

  /** In every run an entry that such a turn wrote is found by a later look, at which it is the best visible point,
      exactly if the later turn does not itself skip the cache and the entry passes its checks; the category of the turn
      that wrote it plays no part. */
  lemma {:induction false} SkippedEntryFound(w: World, actions: seq<Action>, k: nat, id: string, t: nat, turn: Turn,
                                             now: real)
    requires var s := Run(w, EMPTY, actions);
             && id in s.cache.entries && WrittenAt(w.env, s.log, k, id, s.cache.entries[id]) && Skips(s.log[k].turn)
             && Enabled(w, s, Look(t, turn, Some(id), now, false))
    ensures var s, log := Run(w, EMPTY, actions), LogOf(w, actions + [Look(t, turn, Some(id), now, false)]);
            && s.cache.entries[id].ttl == w.env.defaultTtl
            && (|log| > |s.log| <==>
                  && turn.embedding.Some? && !w.shouldSkip(turn.query) && !w.disabled && !turn.images && !Skips(turn)
                  && Accepts(w.env, s.cache.entries[id], QueryOf(w, turn), now))
            && (|log| > |s.log| ==> log[|s.log|].Found? && log[|s.log|].hit.entry == s.cache.entries[id])
  {
    RunInv(w, actions);
    var s := Run(w, EMPTY, actions);
    assert EventRight(w, s.log, k);
    var _ := Take(w, actions, Look(t, turn, Some(id), now, false));
  }

  /** And such runs are real: what a live or casual turn answers is served to the same question later, exactly if that
      is classified otherwise, to a category whose floor the score of the text with itself meets, and in time. */
  lemma SkippedAnswerServed(w: World, first: Turn, o: Outcome, now: real, category: Category, at: real)
    returns (actions: seq<Action>)
    requires Teaches(w, first, o) && Skips(first) && !w.shouldSkip(first.query) && !w.disabled
    ensures var e, again := EntryOf(w, first, o, now), first.(category := Some(category));
            && e.ttl == w.env.defaultTtl
            && (ServedAt(w, actions, 2) <==>
                  && !PolicyFor(category).skip
                  && w.env.score(e.embedding, e.embedding) >= PolicyFor(category).threshold
                  && InTime(e, at, QueryOf(w, again).serveStale))
  {
    var again := first.(category := Some(category));
    actions := TwoTurns(w, first, o, now, again, at, CacheJudge.Says(true, false));
  }

  // ----- memories -----

  /** An entry is private to a name exactly if memories went into it, and is then served to that name only. */
  lemma MemoriesStayWithName(w: World, actions: seq<Action>, n: nat) returns (k: nat, m: nat)
    requires ServedAt(w, actions, n)
    ensures var log := LogOf(w, actions);
            && k < m == log[n].look < n && log[k].Wrote? && log[m].Found? && log[k].entry == log[m].hit.entry
            && (log[k].entry.scope.None? <==> !log[k].outcome.memories)
            && (log[k].outcome.memories ==> UserOf(w, log[m].turn) == UserOf(w, log[k].turn))
  {
    k, m := ServedSound(w, actions, n);
  }

  /** The n-th event serves what the k-th wrote from one person's memories to another person. */
  ghost predicate LeaksAt(w: World, log: seq<Event>, n: nat, k: nat) {
    && n < |log| && log[n].Served? && FoundAt(log, log[n].look)
    && var m := log[n].look;
       && WrittenAt(w.env, log[..m], k, log[m].hit.id, log[m].hit.entry) && k < m
       && log[k].outcome.memories && log[k].turn.person != log[m].turn.person
  }

  ghost predicate NoLeak(w: World) { forall actions, n, k :: !LeaksAt(w, LogOf(w, actions), n, k) }

  /** A name with memories is one person's. */
  ghost predicate NamesTell(w: World) { forall p, q :: NameTells(w, p, q) }

  predicate NameTells(w: World, p: int, q: int) {
    Remembered(w.nameOf(p)) && w.nameOf(p) == w.nameOf(q) ==> p == q
  }

  /** Some question may be cached and found again. */
  ghost predicate Open(w: World, query: string, answer: string) {
    && query != "" && !w.shouldSkip(query) && !w.disabled
    && answer != "" && !AnswerQuality.Degenerate(w.env.alphabet, answer) && w.env.score(0, 0) >= 0.93
  }

  lemma LeakShowsNames(w: World, actions: seq<Action>, n: nat, k: nat)
    requires LeaksAt(w, LogOf(w, actions), n, k)
    ensures !NamesTell(w)
  {
    var log := LogOf(w, actions);
    var m := ServedWasFound(w, actions, n);
    RunInv(w, actions);
    assert EventRight(w, log, k);
    assert !NameTells(w, log[k].turn.person, log[m].turn.person);
  }

  /** Two persons under one name: the first is told something from memory, and the second is served it. */
  lemma LeakRun(w: World, query: string, answer: string, p: int, q: int) returns (actions: seq<Action>)
    requires Open(w, query, answer) && p != q && Remembered(w.nameOf(p)) && w.nameOf(p) == w.nameOf(q)
    ensures LeaksAt(w, LogOf(w, actions), 2, 0)
  {
    var first := Turn(query, p, Some(0), false, Some(Procedural), None, true, None);
    var o := Outcome(answer, [], true, false, false, false);
    var second := first.(person := q);
    actions := TwoTurns(w, first, o, 0.0, second, 0.0, CacheJudge.Says(true, false));
    var log := LogOf(w, actions);
    assert log[..1] == [log[0]];
    assert log[0].entry.(low := false) == log[0].entry;
    assert WrittenAt(w.env, log[..1], 0, log[1].hit.id, log[1].hit.entry);
  }

  /** Answers made from a person's memories reach no other person exactly if no two persons share a name with memories. */
  lemma MemoriesStayWithPerson(w: World, query: string, answer: string)
    requires Open(w, query, answer)
    ensures NoLeak(w) <==> NamesTell(w)
  {
    if NamesTell(w) {
      forall actions, n, k ensures !LeaksAt(w, LogOf(w, actions), n, k) {
        if LeaksAt(w, LogOf(w, actions), n, k) {
          LeakShowsNames(w, actions, n, k);
        }
      }
    } else {
      var p, q :| !NameTells(w, p, q);
      var actions := LeakRun(w, query, answer, p, q);
    }
  }

  /** How callers name a person: by an id, or by a placeholder if none could be resolved. */
  function CallerName(oid: Option<string>, placeholder: string): string {
    if oid.None? || oid.value == "" then placeholder else oid.value
  }

  predicate Nameless(oid: Option<string>) { oid.None? || oid.value == "" }

  /** So with ids that tell persons apart it depends on the placeholder: `anonymous` has no memories, any other is
      shared by all whose identity could not be resolved. */
  lemma PlaceholderShares(w: World, query: string, answer: string, oidOf: int -> Option<string>, placeholder: string)
    requires Open(w, query, answer)
    requires forall p :: w.nameOf(p) == CallerName(oidOf(p), placeholder)
    requires forall p, q :: !Nameless(oidOf(p)) && oidOf(p) == oidOf(q) ==> p == q
    requires forall p :: oidOf(p) != Some(placeholder)
    ensures NoLeak(w) <==> !Remembered(placeholder) || forall p, q :: Nameless(oidOf(p)) && Nameless(oidOf(q)) ==> p == q
  {
    MemoriesStayWithPerson(w, query, answer);
    forall p, q ensures NameTells(w, p, q) <==>
                          (Remembered(placeholder) && Nameless(oidOf(p)) && Nameless(oidOf(q)) ==> p == q) {
    }
  }

  // ----- a removal between the look and the serve -----

  /** The judge is awaited, and an invalidation meanwhile does not stop the hit: it is served although it is gone. */
  lemma RemovedYetServed(w: World, first: Turn, o: Outcome, second: Turn, repo: string)
    returns (actions: seq<Action>)
    requires Teaches(w, first, o) && second.revalidates.None? && repo in w.env.deriveRepos(o.sources)
    requires Gets(w, EntryOf(w, first, o, 1.0), second, 1.0)
    ensures var s, e := Run(w, EMPTY, actions), EntryOf(w, first, o, 1.0);
            && |s.log| == 4 && s.log[1].Found? && s.log[1].hit.entry == e
            && s.log[2] == RepoInvalidated(repo) && s.log[3] == Served(1, CacheJudge.Says(true, false))
            && s.cache.entries == map[]
  {
    actions := Teach(w, first, o, 1.0);
    var s, id, e := Taught(w, first, o, 1.0), IdOf(w, first, o), EntryOf(w, first, o, 1.0);
    SecondLook(w, s, id, e, second, 1.0);
    actions := Take(w, actions, Look(1, second, TopFor(w, id, e, second), 1.0, false));
    actions := Take(w, actions, Invalidate(repo));
    assert Run(w, EMPTY, actions).cache.entries == map[];
    actions := Take(w, actions, Judge(1, CacheJudge.Says(true, false), false));
  }

  /** A thumbs-down on a question never reaches an answer to it kept under a user's own id. */
  lemma FlagMissesScoped(env: Env, c: Collection, question: string, user: string)
    requires user != "" && PointId(env, question, user) in c.entries
    ensures var id, after := PointId(env, question, user), Flagged(env, c, question);
            id in after.entries && after.entries[id] == c.entries[id]
  {
    assert |PointId(env, question, user)| > |PointId(env, question, "")|;
  }
}
