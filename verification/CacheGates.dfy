/** The gates around the answer cache (opsrag/agent/graph.py, lines 812-1002 and 1198-1252, and again 1375-1460 and
    1662-1706 for the streaming path), with the category policy (opsrag/agent/classifier.py, lines 714-735).

    A turn looks into the cache; what it finds is judged, and served, one await later; if it is not served it answers,
    and that may be written.  Between these steps other turns take theirs, and operators flag, invalidate, purge, or lose
    the collection.  The log keeps what happened to the cache. */
module CacheGates {

  import AnswerQuality
  import CacheJudge
  import opened Options
  import opened SemanticCache

  datatype Category = Forensic | Procedural | Mixed | Live | InfraGraph | Casual | Unknown

  datatype Policy = Policy(ttl: int, skip: bool, threshold: real)

  function PolicyFor(c: Category): Policy {
    match c
    case Forensic => Policy(90 * 86400, false, 0.92)
    case Procedural => Policy(30 * 86400, false, 0.93)
    case Mixed => Policy(300, false, 0.96)
    case Live => Policy(0, true, 0.99)
    case InfraGraph => Policy(4 * 3600, false, 0.94)
    case Casual => Policy(0, true, 0.99)
    case Unknown => Policy(14 * 86400, false, 0.93)
  }

  /** The parts of the process the gates consult.  `nameOf` is the user id that callers make up for a person. */
  datatype World = World(env: Env, nameOf: int -> string, norm: string -> string, shouldSkip: string -> bool,
                         disabled: bool, swrDefault: bool, judgeEnv: CacheJudge.Environment, judge: CacheJudge.Settings)

  /** What a turn knows before the agent runs.  `revalidates` names the stale hit a background run refreshes. */
  datatype Turn = Turn(query: string, person: int, embedding: Option<int>, images: bool, category: Option<Category>,
                       serveStale: Option<bool>, bound: bool, revalidates: Option<nat>)

  /** What the agent's final state says. */
  datatype Outcome = Outcome(answer: string, sources: seq<string>, memories: bool, groundedFalse: bool, checked: bool,
                             toolPath: bool)

  datatype Event = Wrote(id: string, entry: Entry, turn: Turn, outcome: Outcome)
                 | Found(hit: Hit, turn: Turn, now: real)          // a look that passed every check of the cache
                 | Served(look: nat, reply: CacheJudge.Reply)      // what that look found goes to its turn
                 | FlaggedLow(id: string) | RepoInvalidated(repo: string) | PurgedBy(f: Filter, now: real)
                 | Emptied

  datatype State = State(
    cache: Collection,
    judging: map<nat, nat>,          // turns whose hit is before the judge, and where the log has it
    waiting: map<nat, Turn>,         // turns whose agent is running
    spawned: seq<Turn>,              // turns that were served stale; each starts one revalidation
    log: seq<Event>)

  datatype Action = Look(t: nat, turn: Turn, top: Option<string>, now: real, broken: bool)
                  | Judge(t: nat, reply: CacheJudge.Reply, broken: bool)
                  | Answer(t: nat, outcome: Outcome, now: real, broken: bool)
                  | Flag(question: string) | Invalidate(repo: string) | Purge(f: Filter, now: real) | PurgeAll
                  | Vanish

  const EMPTY := State(Collection(map[], false, false), map[], map[], [], [])

  function UserOf(w: World, turn: Turn): string { w.nameOf(turn.person) }

  /** Memories are kept per name, and none for these two (opsrag/agent/nodes/memory_saver.py, line 61). */
  predicate Remembered(name: string) { name != "" && name != "anonymous" }

  predicate SkipCache(w: World, turn: Turn) {
    || w.shouldSkip(turn.query) || w.disabled || turn.images
    || (turn.category.Some? && PolicyFor(turn.category.value).skip)
  }

  predicate Asks(w: World, turn: Turn) { turn.embedding.Some? && !SkipCache(w, turn) }

  function MinScore(turn: Turn): Option<real> {
    if turn.category.Some? then Some(PolicyFor(turn.category.value).threshold) else None
  }

  function QueryOf(w: World, turn: Turn): Query
    requires turn.embedding.Some?
  {
    Query(Some(turn.query), turn.embedding.value, UserOf(w, turn),
          if turn.serveStale.Some? then turn.serveStale.value else w.swrDefault, MinScore(turn))
  }

  function CaseOf(turn: Turn, hit: Hit): CacheJudge.Case {
    CacheJudge.Case(turn.query, hit.entry.question, hit.similarity, MinScore(turn), turn.bound)
  }

  predicate JudgeAllows(w: World, turn: Turn, hit: Hit, reply: CacheJudge.Reply) {
    CacheJudge.Allowed(w.judgeEnv, w.judge, w.norm, CaseOf(turn, hit), reply)
  }

  /** What a look finds, if anything; an exception on the way counts as a miss. */
  ghost function Finds(w: World, entries: map<string, Entry>, turn: Turn, top: Option<string>, now: real,
                       broken: bool): Option<Hit>
    requires Asks(w, turn) ==> TopOf(w.env, entries, QueryOf(w, turn), top)
  {
    if !Asks(w, turn) || broken then None else Looked(w.env, entries, QueryOf(w, turn), top, now)
  }

  /** The gate before the cache is written. */
  predicate MayStore(turn: Turn, o: Outcome) {
    turn.embedding.Some? && o.answer != "" && !(o.groundedFalse && o.checked) && !o.toolPath && !turn.images
  }

  function WriteOf(w: World, turn: Turn, o: Outcome): Write
    requires turn.embedding.Some?
  {
    Write(turn.query, turn.embedding.value, o.answer, o.sources, {},
          if turn.category.Some? then Some(PolicyFor(turn.category.value).ttl) else None,
          if o.memories then UserOf(w, turn) else "")
  }

  /** The answer reaches the collection. */
  ghost predicate Writes(w: World, turn: Turn, o: Outcome, broken: bool) {
    MayStore(turn, o) && !broken && Cacheable(w.env, WriteOf(w, turn, o))
  }

  /** A revalidation repeats a stale turn's question for its person, without images, and never serves stale. */
  predicate Revalidation(spawned: seq<Turn>, turn: Turn) {
    turn.revalidates.Some? ==>
      && turn.revalidates.value < |spawned|
      && turn.query == spawned[turn.revalidates.value].query
      && turn.person == spawned[turn.revalidates.value].person
      && !turn.images && turn.serveStale == Some(false)
  }

  predicate FoundAt(log: seq<Event>, m: nat) { m < |log| && log[m].Found? }

  ghost predicate Enabled(w: World, s: State, a: Action) {
    match a
    case Look(t, turn, top, _, _) =>
      && t !in s.waiting && t !in s.judging && Revalidation(s.spawned, turn)
      && (Asks(w, turn) ==> TopOf(w.env, s.cache.entries, QueryOf(w, turn), top))
    case Judge(t, _, _) => t in s.judging && FoundAt(s.log, s.judging[t])
    case Answer(t, o, _, _) => t in s.waiting && (o.memories ==> Remembered(UserOf(w, s.waiting[t])))
    case _ => true
  }

  ghost function AfterLook(w: World, s: State, t: nat, turn: Turn, top: Option<string>, now: real, broken: bool): State
    requires Enabled(w, s, Look(t, turn, top, now, broken))
  {
    var cache := if Asks(w, turn) && !broken then Ensured(s.cache) else s.cache;
    var hit := Finds(w, s.cache.entries, turn, top, now, broken);
    if hit.Some? then
      s.(cache := cache, judging := s.judging[t := |s.log|], log := s.log + [Found(hit.value, turn, now)])
    else s.(cache := cache, waiting := s.waiting[t := turn])
  }

  function AfterJudge(w: World, s: State, t: nat, reply: CacheJudge.Reply, broken: bool): State
    requires t in s.judging && FoundAt(s.log, s.judging[t])
  {
    var look, done := s.judging[t], s.judging - {t};
    var turn, hit := s.log[look].turn, s.log[look].hit;
    if !broken && JudgeAllows(w, turn, hit, reply) then
      s.(judging := done, spawned := if hit.isStale then s.spawned + [turn] else s.spawned,
         log := s.log + [Served(look, reply)])
    else s.(judging := done, waiting := s.waiting[t := turn])
  }

  ghost function AfterAnswer(w: World, s: State, t: nat, o: Outcome, now: real, broken: bool): State
    requires t in s.waiting
  {
    var turn, done := s.waiting[t], s.waiting - {t};
    if Writes(w, turn, o, broken) then
      var write := WriteOf(w, turn, o);
      s.(cache := Stored(w.env, s.cache, write, now), waiting := done,
         log := s.log + [Wrote(WriteId(w.env, s.cache, write), Made(w.env, write, now), turn, o)])
    else s.(waiting := done)
  }

  ghost function Step(w: World, s: State, a: Action): State
    requires Enabled(w, s, a)
  {
    match a
    case Look(t, turn, top, now, broken) => AfterLook(w, s, t, turn, top, now, broken)
    case Judge(t, reply, broken) => AfterJudge(w, s, t, reply, broken)
    case Answer(t, o, now, broken) => AfterAnswer(w, s, t, o, now, broken)
    case Flag(question) =>
      s.(cache := Flagged(w.env, s.cache, question), log := s.log + [FlaggedLow(PointId(w.env, question, ""))])
    case Invalidate(repo) =>
      s.(cache := Invalidated(s.cache, repo), log := s.log + [RepoInvalidated(repo)])
    case Purge(f, now) =>
      s.(cache := Purged(w.env, s.cache, f, now),
         log := if NoFilter(f) then s.log else s.log + [PurgedBy(f, now)])
    case PurgeAll => s.(cache := Cleared(s.cache), log := s.log + [Emptied])
    case Vanish => s.(cache := s.cache.(entries := map[], present := false), log := s.log + [Emptied])
  }

  ghost function Run(w: World, s: State, actions: seq<Action>): State
    decreases |actions|
  {
    if actions == [] then s
    else
      var t, a := Run(w, s, actions[..|actions| - 1]), actions[|actions| - 1];
      if Enabled(w, t, a) then Step(w, t, a) else t
  }

  // ----- where an entry comes from -----

  /** The event takes the entry out of the cache, as long as it is not flagged: whether a purge by quality takes one
      that is depends on when it was. */
  predicate Removes(env: Env, ev: Event, id: string, e: Entry) {
    match ev
    case Wrote(other, _, _, _) => other == id
    case RepoInvalidated(repo) => repo in e.repos
    case PurgedBy(f, now) => !e.low && Selects(env, f, e, now)
    case Emptied => true
    case _ => false
  }

  predicate Spares(env: Env, ev: Event, id: string, e: Entry) {
    !Removes(env, ev, id, e) && (ev == FlaggedLow(id) ==> e.low)
  }

  /** The k-th event wrote the entry, and nothing since has removed it or, unless it is flagged now, flagged it. */
  ghost predicate WrittenAt(env: Env, log: seq<Event>, k: nat, id: string, e: Entry) {
    && k < |log| && log[k].Wrote? && log[k].id == id && log[k].entry == e.(low := false)
    && forall j :: k < j < |log| ==> Spares(env, log[j], id, e)
  }

  ghost predicate Backed(env: Env, log: seq<Event>, id: string, e: Entry) { exists k :: WrittenAt(env, log, k, id, e) }

  /** What the gates let through: never an image turn, a tool-path turn or an ungrounded one; and the entry is what the
      turn made of it, private to its user exactly if memories went into it. */
  ghost predicate WroteRight(w: World, id: string, e: Entry, turn: Turn, o: Outcome) {
    && !turn.images && !o.toolPath && !(o.groundedFalse && o.checked)
    && e.question == turn.query && e.answer == o.answer && Some(e.embedding) == turn.embedding
    && !AnswerQuality.Degenerate(w.env.alphabet, e.answer)
    && e.repos == w.env.deriveRepos(o.sources)
    && (o.memories ==> Remembered(UserOf(w, turn)))
    && e.scope == (if o.memories then Some(UserOf(w, turn)) else None)
    && e.ttl == Ttl(w.env, if turn.category.Some? then Some(PolicyFor(turn.category.value).ttl) else None)
    && (id == PointId(w.env, e.question, "") || (e.scope.Some? && id == PointId(w.env, e.question, e.scope.value)))
  }

  /** What a look found was in the cache: an entry shared or the user's own, over the floor, with the same
      discriminators, not flagged, not degenerate, and in time or marked stale, for a turn that may use the cache. */
  ghost predicate FoundRight(w: World, log: seq<Event>, hit: Hit, turn: Turn, now: real) {
    && Asks(w, turn) && (turn.revalidates.Some? ==> turn.serveStale == Some(false))
    && Backed(w.env, log, hit.id, hit.entry)
    && Visible(hit.entry, UserOf(w, turn)) && Accepts(w.env, hit.entry, QueryOf(w, turn), now)
    && hit.similarity == w.env.score(turn.embedding.value, hit.entry.embedding)
    && hit.isStale == Expired(hit.entry, now)
  }

  /** What was served had been found, and the judge did not object. */
  ghost predicate ServedRight(w: World, log: seq<Event>, look: nat, reply: CacheJudge.Reply) {
    FoundAt(log, look) && JudgeAllows(w, log[look].turn, log[look].hit, reply)
  }

  ghost predicate EventRight(w: World, log: seq<Event>, n: nat)
    requires n < |log|
  {
    match log[n]
    case Wrote(id, e, turn, o) => WroteRight(w, id, e, turn, o)
    case Found(hit, turn, now) => FoundRight(w, log[..n], hit, turn, now)
    case Served(look, reply) => ServedRight(w, log[..n], look, reply)
    case _ => true
  }

  predicate StaleServe(log: seq<Event>, ev: Event) { ev.Served? && FoundAt(log, ev.look) && log[ev.look].hit.isStale }

  /** How many stale hits were served. */
  function StaleServes(log: seq<Event>): nat {
    if log == [] then 0
    else
      var before := log[..|log| - 1];
      StaleServes(before) + if StaleServe(before, log[|log| - 1]) then 1 else 0
  }

  ghost predicate LogRight(w: World, log: seq<Event>) { forall n :: 0 <= n < |log| ==> EventRight(w, log, n) }

  /** Whatever is in the cache was written and not removed since ... */
  ghost predicate AllBacked(env: Env, c: Collection, log: seq<Event>) {
    forall id :: id in c.entries ==> Backed(env, log, id, c.entries[id])
  }

  /** ... and what was written and not removed or flagged since is in the cache. */
  ghost predicate AllKept(env: Env, c: Collection, log: seq<Event>) {
    forall id, e: Entry :: !e.low && Backed(env, log, id, e) ==> Holds(c, id, e)
  }

  predicate Holds(c: Collection, id: string, e: Entry) { id in c.entries && c.entries[id] == e }

  ghost predicate TurnsRight(s: State) {
    && (forall t :: t in s.judging ==> FoundAt(s.log, s.judging[t]))
    && |s.spawned| == StaleServes(s.log)
    && (forall k :: 0 <= k < |s.spawned| ==> s.spawned[k].revalidates.None?)
  }

  ghost predicate Inv(w: World, s: State) {
    Valid(s.cache) && AllBacked(w.env, s.cache, s.log) && AllKept(w.env, s.cache, s.log) && LogRight(w, s.log) && TurnsRight(s)
  }

  // ----- one event more -----

  lemma BackedLater(env: Env, log: seq<Event>, ev: Event, id: string, e: Entry)
    requires Backed(env, log, id, e) && Spares(env, ev, id, e)
    ensures Backed(env, log + [ev], id, e)
  {
    var k: nat :| WrittenAt(env, log, k, id, e);
    assert WrittenAt(env, log + [ev], k, id, e);
  }

  lemma BackedBefore(env: Env, log: seq<Event>, ev: Event, id: string, e: Entry)
    requires Backed(env, log + [ev], id, e)
    ensures (Backed(env, log, id, e) && Spares(env, ev, id, e))
         || (ev.Wrote? && ev.id == id && ev.entry == e.(low := false))
  {
    var more := log + [ev];
    var k: nat :| WrittenAt(env, more, k, id, e);
    if k < |log| {
      assert forall j :: k < j < |log| ==> more[j] == log[j];
      assert WrittenAt(env, log, k, id, e);
      assert more[|log|] == ev;
    }
  }

  lemma LogGrows(w: World, log: seq<Event>, ev: Event)
    requires LogRight(w, log)
    requires ev.Wrote? ==> WroteRight(w, ev.id, ev.entry, ev.turn, ev.outcome)
    requires ev.Found? ==> FoundRight(w, log, ev.hit, ev.turn, ev.now)
    requires ev.Served? ==> ServedRight(w, log, ev.look, ev.reply)
    ensures LogRight(w, log + [ev])
  {
    var more := log + [ev];
    forall n | 0 <= n < |more| ensures EventRight(w, more, n) {
      assert more[..n] == log[..n];
      assert n < |log| ==> EventRight(w, log, n);
      assert n == |log| ==> log[..n] == log;
    }
  }

  lemma TurnsLater(s: State, ev: Event)
    requires TurnsRight(s) && !ev.Served?
    ensures TurnsRight(s.(log := s.log + [ev]))
  {
    assert (s.log + [ev])[..|s.log|] == s.log;
  }

  /** The event leaves an entry that it does not remove, and flags at most the one it says. */
  ghost predicate Fits(env: Env, before: Collection, ev: Event, after: Collection) {
    && Valid(after) && !ev.Wrote?
    && (forall id :: id in after.entries ==> FitsAt(env, before, ev, after, id))
    && (forall id :: id in before.entries && !before.entries[id].low && Spares(env, ev, id, before.entries[id]) ==>
          Holds(after, id, before.entries[id]))
  }

  predicate FitsAt(env: Env, before: Collection, ev: Event, after: Collection, id: string)
    requires id in after.entries
  {
    && id in before.entries && Spares(env, ev, id, after.entries[id])
    && (after.entries[id] == before.entries[id] || after.entries[id] == before.entries[id].(low := true))
  }

  lemma BackedLow(env: Env, log: seq<Event>, id: string, e: Entry)
    requires Backed(env, log, id, e)
    ensures Backed(env, log, id, e.(low := true))
  {
    var k: nat :| WrittenAt(env, log, k, id, e);
    forall j | k < j < |log| ensures Spares(env, log[j], id, e.(low := true)) {
      assert Spares(env, log[j], id, e);
    }
    assert WrittenAt(env, log, k, id, e.(low := true));
  }

  lemma BackedStep(env: Env, before: Collection, log: seq<Event>, ev: Event, after: Collection)
    requires AllBacked(env, before, log) && Fits(env, before, ev, after)
    ensures AllBacked(env, after, log + [ev])
  {
    forall id | id in after.entries ensures Backed(env, log + [ev], id, after.entries[id]) {
      assert FitsAt(env, before, ev, after, id);
      BackedLow(env, log, id, before.entries[id]);
      BackedLater(env, log, ev, id, after.entries[id]);
    }
  }

  lemma KeptStep(env: Env, before: Collection, log: seq<Event>, ev: Event, after: Collection)
    requires AllKept(env, before, log) && Fits(env, before, ev, after)
    ensures AllKept(env, after, log + [ev])
  {
    forall id, e: Entry | !e.low && Backed(env, log + [ev], id, e) ensures Holds(after, id, e) {
      BackedBefore(env, log, ev, id, e);
      assert Holds(before, id, e);
    }
  }

  lemma KeepInv(w: World, s: State, ev: Event, after: Collection)
    requires Inv(w, s) && Fits(w.env, s.cache, ev, after) && !ev.Served?
    requires ev.Found? ==> FoundRight(w, s.log, ev.hit, ev.turn, ev.now)
    ensures Inv(w, s.(cache := after, log := s.log + [ev]))
  {
    BackedStep(w.env, s.cache, s.log, ev, after);
    KeptStep(w.env, s.cache, s.log, ev, after);
    LogGrows(w, s.log, ev);
    TurnsLater(s, ev);
  }

  // ----- what each action keeps -----

  lemma FindsRight(w: World, s: State, turn: Turn, top: Option<string>, now: real)
    requires Inv(w, s) && Revalidation(s.spawned, turn) && Asks(w, turn)
    requires TopOf(w.env, s.cache.entries, QueryOf(w, turn), top)
    ensures var hit := Looked(w.env, s.cache.entries, QueryOf(w, turn), top, now);
            hit.Some? ==> FoundRight(w, s.log, hit.value, turn, now)
  {
  }

  lemma FoundFits(env: Env, c: Collection, ev: Event)
    requires Valid(c) && (ev.Found? || ev.Served?)
    ensures Fits(env, c, ev, Ensured(c)) && Fits(env, c, ev, c)
  {
  }

  lemma NewLook(w: World, s: State, t: nat, look: nat)
    requires Inv(w, s) && FoundAt(s.log, look)
    ensures Inv(w, s.(judging := s.judging[t := look]))
  {
  }

  lemma LookInv(w: World, s: State, t: nat, turn: Turn, top: Option<string>, now: real, broken: bool)
    requires Inv(w, s) && Enabled(w, s, Look(t, turn, top, now, broken))
    ensures Inv(w, AfterLook(w, s, t, turn, top, now, broken))
  {
    var hit := Finds(w, s.cache.entries, turn, top, now, broken);
    if hit.Some? {
      var ev := Found(hit.value, turn, now);
      FindsRight(w, s, turn, top, now);
      FoundFits(w.env, s.cache, ev);
      KeepInv(w, s, ev, Ensured(s.cache));
      NewLook(w, s.(cache := Ensured(s.cache), log := s.log + [ev]), t, |s.log|);
    }
  }

  /** A revalidation is never found anything stale. */
  lemma StaleIsFirst(w: World, log: seq<Event>, look: nat)
    requires LogRight(w, log) && FoundAt(log, look) && log[look].hit.isStale
    ensures log[look].turn.revalidates.None?
  {
    assert EventRight(w, log, look);
  }

  lemma ServedTurns(w: World, s: State, look: nat, reply: CacheJudge.Reply)
    requires TurnsRight(s) && LogRight(w, s.log) && FoundAt(s.log, look)
    ensures var stale := s.log[look].hit.isStale;
            TurnsRight(s.(spawned := if stale then s.spawned + [s.log[look].turn] else s.spawned,
                          log := s.log + [Served(look, reply)]))
  {
    assert (s.log + [Served(look, reply)])[..|s.log|] == s.log;
    if s.log[look].hit.isStale {
      StaleIsFirst(w, s.log, look);
    }
  }

  lemma JudgeInv(w: World, s: State, t: nat, reply: CacheJudge.Reply, broken: bool)
    requires Inv(w, s) && Enabled(w, s, Judge(t, reply, broken))
    ensures Inv(w, AfterJudge(w, s, t, reply, broken))
  {
    var look := s.judging[t];
    var turn, hit := s.log[look].turn, s.log[look].hit;
    if !broken && JudgeAllows(w, turn, hit, reply) {
      var ev := Served(look, reply);
      FoundFits(w.env, s.cache, ev);
      BackedStep(w.env, s.cache, s.log, ev, s.cache);
      KeptStep(w.env, s.cache, s.log, ev, s.cache);
      LogGrows(w, s.log, ev);
      ServedTurns(w, s, look, reply);
    }
  }

  lemma WriteRight(w: World, c: Collection, turn: Turn, o: Outcome, now: real)
    requires Writes(w, turn, o, false) && (o.memories ==> Remembered(UserOf(w, turn)))
    ensures var write := WriteOf(w, turn, o);
            WroteRight(w, WriteId(w.env, c, write), Made(w.env, write, now), turn, o)
  {
  }

  lemma WrittenLast(env: Env, log: seq<Event>, ev: Event)
    requires ev.Wrote? && !ev.entry.low
    ensures WrittenAt(env, log + [ev], |log|, ev.id, ev.entry)
  {
    assert ev.entry.(low := false) == ev.entry;
  }

  lemma StoreInv(w: World, s: State, ev: Event, present: bool, ensured: bool)
    requires Inv(w, s) && ev.Wrote? && !ev.entry.low && present
    requires WroteRight(w, ev.id, ev.entry, ev.turn, ev.outcome)
    ensures Inv(w, s.(cache := Collection(s.cache.entries[ev.id := ev.entry], present, ensured), log := s.log + [ev]))
  {
    var log, after := s.log + [ev], Collection(s.cache.entries[ev.id := ev.entry], present, ensured);
    WrittenLast(w.env, s.log, ev);
    forall id | id in after.entries ensures Backed(w.env, log, id, after.entries[id]) {
      if id != ev.id {
        BackedLater(w.env, s.log, ev, id, after.entries[id]);
      }
    }
    forall id, e: Entry | !e.low && Backed(w.env, log, id, e) ensures Holds(after, id, e) {
      BackedBefore(w.env, s.log, ev, id, e);
      assert e.(low := false) == e;
    }
    LogGrows(w, s.log, ev);
    TurnsLater(s, ev);
  }

  lemma AnswerInv(w: World, s: State, t: nat, o: Outcome, now: real, broken: bool)
    requires Inv(w, s) && Enabled(w, s, Answer(t, o, now, broken))
    ensures Inv(w, AfterAnswer(w, s, t, o, now, broken))
  {
    var turn := s.waiting[t];
    if Writes(w, turn, o, broken) {
      var write := WriteOf(w, turn, o);
      WriteRight(w, s.cache, turn, o, now);
      StoreInv(w, s, Wrote(WriteId(w.env, s.cache, write), Made(w.env, write, now), turn, o), true, true);
    }
  }

  lemma FlagFits(env: Env, c: Collection, question: string)
    requires Valid(c)
    ensures Fits(env, c, FlaggedLow(PointId(env, question, "")), Flagged(env, c, question))
  {
  }

  lemma InvalidateFits(env: Env, c: Collection, repo: string)
    requires Valid(c)
    ensures Fits(env, c, RepoInvalidated(repo), Invalidated(c, repo))
  {
  }

  lemma PurgeFits(env: Env, c: Collection, f: Filter, now: real)
    requires Valid(c) && !NoFilter(f)
    ensures Valid(Purged(env, c, f, now))
    ensures forall id :: id in c.entries && !c.entries[id].low && Selects(env, f, c.entries[id], now) ==>
              id !in Purged(env, c, f, now).entries
    ensures forall id :: id in Purged(env, c, f, now).entries ==>
              Holds(c, id, Purged(env, c, f, now).entries[id])
    ensures forall id :: id in c.entries && !Selects(env, f, c.entries[id], now) ==>
              Holds(Purged(env, c, f, now), id, c.entries[id])
  {
  }

  lemma EmptyFits(env: Env, c: Collection, after: Collection)
    requires after.entries == map[]
    ensures Fits(env, c, Emptied, after)
  {
  }

  lemma PurgeInv(w: World, s: State, f: Filter, now: real)
    requires Inv(w, s) && !NoFilter(f)
    ensures Inv(w, s.(cache := Purged(w.env, s.cache, f, now), log := s.log + [PurgedBy(f, now)]))
  {
    PurgeFits(w.env, s.cache, f, now);
    KeepInv(w, s, PurgedBy(f, now), Purged(w.env, s.cache, f, now));
  }

  lemma StepInv(w: World, s: State, a: Action)
    requires Inv(w, s) && Enabled(w, s, a)
    ensures Inv(w, Step(w, s, a))
  {
    match a
    case Look(t, turn, top, now, broken) => LookInv(w, s, t, turn, top, now, broken);
    case Judge(t, reply, broken) => JudgeInv(w, s, t, reply, broken);
    case Answer(t, o, now, broken) => AnswerInv(w, s, t, o, now, broken);
    case Flag(question) =>
      FlagFits(w.env, s.cache, question);
      KeepInv(w, s, FlaggedLow(PointId(w.env, question, "")), Flagged(w.env, s.cache, question));
    case Invalidate(repo) =>
      InvalidateFits(w.env, s.cache, repo);
      KeepInv(w, s, RepoInvalidated(repo), Invalidated(s.cache, repo));
    case Purge(f, now) => if !NoFilter(f) { PurgeInv(w, s, f, now); }
    case PurgeAll =>
      EmptyFits(w.env, s.cache, Cleared(s.cache));
      KeepInv(w, s, Emptied, Cleared(s.cache));
    case Vanish =>
      EmptyFits(w.env, s.cache, s.cache.(entries := map[], present := false));
      KeepInv(w, s, Emptied, s.cache.(entries := map[], present := false));
  }

  lemma {:induction false} RunInv(w: World, actions: seq<Action>)
    ensures Inv(w, Run(w, EMPTY, actions))
    decreases |actions|
  {
    if actions != [] {
      var front, a := actions[..|actions| - 1], actions[|actions| - 1];
      RunInv(w, front);
      if Enabled(w, Run(w, EMPTY, front), a) {
        StepInv(w, Run(w, EMPTY, front), a);
      }
    }
  }

  // ----- the gates themselves -----

  /** The lookup gate of `query_with_session`: what the turn's look finds. */
  method LookupGate(w: World, cache: QAVectorCache, turn: Turn, now: real)
    returns (ghost top: Option<string>, hit: Option<Hit>)
    requires Valid(cache.State()) && cache.env == w.env
    modifies cache
    ensures cache.State() == if Asks(w, turn) then Ensured(old(cache.State())) else old(cache.State())
    ensures Asks(w, turn) ==> TopOf(w.env, cache.entries, QueryOf(w, turn), top)
    ensures hit == Finds(w, cache.entries, turn, top, now, false)
  {
    top, hit := None, None;
    if turn.embedding.None? {
      return;
    }
    var skip := w.shouldSkip(turn.query) || w.disabled || turn.images
                || (turn.category.Some? && PolicyFor(turn.category.value).skip);
    if skip {
      return;
    }
    top, hit := cache.Lookup(QueryOf(w, turn), now);
  }

  /** The await after it: what was found, unless the judge refuses. */
  method JudgeGate(w: World, judge: CacheJudge.QaCacheJudge, turn: Turn, found: Option<Hit>, reply: CacheJudge.Reply)
    returns (served: Option<Hit>)
    requires judge.Valid() && judge.norm == w.norm && judge.settings == w.judge
    modifies judge`stats
    ensures judge.Valid()
    ensures served == if found.Some? && JudgeAllows(w, turn, found.value, reply) then found else None
  {
    served := found;
    if served.Some? {
      var ok := judge.JudgeMatch(w.judgeEnv, CaseOf(turn, served.value), reply);
      if !ok {
        served := None;
      }
    }
  }

  /** The write gate. */
  method StoreGate(w: World, cache: QAVectorCache, turn: Turn, o: Outcome, now: real)
    requires Valid(cache.State()) && cache.env == w.env
    modifies cache
    ensures cache.State() == if MayStore(turn, o) then Stored(w.env, old(cache.State()), WriteOf(w, turn, o), now)
                             else old(cache.State())
  {
    var ungrounded := o.groundedFalse && o.checked;
    if turn.embedding.Some? && o.answer != "" && !ungrounded && !o.toolPath && !turn.images {
      var ttl := if turn.category.Some? then Some(PolicyFor(turn.category.value).ttl) else None;
      cache.Store(Write(turn.query, turn.embedding.value, o.answer, o.sources, {}, ttl,
                        if o.memories then UserOf(w, turn) else ""), now);
    }
  }
}
