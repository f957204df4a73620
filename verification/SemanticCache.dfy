/** The semantic answer cache (opsrag/qa_cache.py, lines 347-757) over a vector store reduced to a map of points with an
    uninterpreted score.  Writes take effect at once; ids are the strings that the source hashes. */
module SemanticCache {

  import AnswerQuality
  import opened Options

  /** A point and its payload.  `low` is the quality flag. */
  datatype Entry = Entry(question: string, answer: string, embedding: int, repos: set<string>, ttl: int,
                         createdAt: real, scope: Option<string>, low: bool)

  /** `normalize` includes its fallback for a text that normalises to nothing. */
  datatype Env = Env(alphabet: AnswerQuality.Alphabet, score: (int, int) -> real,
                     discriminators: string -> set<string>, normalize: string -> string,
                     deriveRepos: seq<string> -> set<string>, textMatches: (string, string) -> bool,
                     threshold: real, defaultTtl: int)

  const MAX_STALE: real := 604800.0

  /** The collection, whether it is there at all, and whether this process believes so. */
  datatype Collection = Collection(entries: map<string, Entry>, present: bool, ensured: bool)

  ghost predicate Valid(c: Collection) { !c.present ==> c.entries == map[] }

  function PointId(env: Env, question: string, scope: string): string {
    if scope != "" then env.normalize(question) + "|scope:" + scope else env.normalize(question)
  }

  // ----- lookup -----

  datatype Query = Query(text: Option<string>, embedding: int, user: string, serveStale: bool, minScore: Option<real>)

  /** A scope of None is shared; the empty user has no scope of its own. */
  predicate MaySee(scope: Option<string>, user: string) {
    match scope
    case None => true
    case Some(owner) => owner == user && user != ""
  }

  predicate Visible(e: Entry, user: string) { e.scope.None? || (user != "" && e.scope == Some(user)) }

  ghost predicate IsTop(env: Env, entries: map<string, Entry>, q: Query, id: string) {
    && id in entries && Visible(entries[id], q.user)
    && forall other :: other in entries && Visible(entries[other], q.user) ==>
         env.score(q.embedding, entries[other].embedding) <= env.score(q.embedding, entries[id].embedding)
  }

  /** A best visible point, or that there is none. */
  ghost predicate TopOf(env: Env, entries: map<string, Entry>, q: Query, top: Option<string>) {
    if top.Some? then IsTop(env, entries, q, top.value)
    else forall id :: id in entries ==> !Visible(entries[id], q.user)
  }

  /** Past its time to live; an entry without a creation time never is. */
  predicate Expired(e: Entry, now: real) { e.createdAt != 0.0 && now - e.createdAt > e.ttl as real }

  predicate InTime(e: Entry, now: real, serveStale: bool) {
    Expired(e, now) ==> serveStale && now - e.createdAt - e.ttl as real <= MAX_STALE
  }

  /** All that is asked of the best visible point. */
  ghost predicate Accepts(env: Env, e: Entry, q: Query, now: real) {
    && env.score(q.embedding, e.embedding) >= (if q.minScore.Some? then q.minScore.value else env.threshold)
    && !e.low
    && (q.text.Some? ==> env.discriminators(q.text.value) == env.discriminators(e.question))
    && InTime(e, now, q.serveStale)
    && !AnswerQuality.Degenerate(env.alphabet, e.answer)
  }

  datatype Hit = Hit(id: string, entry: Entry, similarity: real, isStale: bool)

  ghost function Looked(env: Env, entries: map<string, Entry>, q: Query, top: Option<string>, now: real): Option<Hit>
    requires TopOf(env, entries, q, top)
  {
    if top.Some? && Accepts(env, entries[top.value], q, now) then
      var e := entries[top.value];
      Some(Hit(top.value, e, env.score(q.embedding, e.embedding), Expired(e, now)))
    else None
  }

  /** Looking up leaves the collection there. */
  function Ensured(c: Collection): Collection { c.(present := true, ensured := true) }

  // ----- writes -----

  datatype Write = Write(question: string, embedding: int, answer: string, sources: seq<string>,
                         sourceRepos: set<string>, ttl: Option<int>, scope: string)

  ghost predicate Cacheable(env: Env, w: Write) {
    w.question != "" && w.answer != "" && !AnswerQuality.Degenerate(env.alphabet, w.answer)
  }

  /** `ttl_seconds or default`: a zero counts as missing. */
  function Ttl(env: Env, ttl: Option<int>): int {
    if ttl.None? || ttl.value == 0 then env.defaultTtl else ttl.value
  }

  function Made(env: Env, w: Write, now: real): Entry {
    Entry(w.question, w.answer, w.embedding,
          if w.sourceRepos != {} then w.sourceRepos else env.deriveRepos(w.sources),
          Ttl(env, w.ttl), now, if w.scope != "" then Some(w.scope) else None, false)
  }

  /** A collection that vanished is made again and the write retried, under the id without the scope. */
  function WriteId(env: Env, c: Collection, w: Write): string {
    PointId(env, w.question, if c.ensured && !c.present then "" else w.scope)
  }

  ghost function Stored(env: Env, c: Collection, w: Write, now: real): Collection {
    if !Cacheable(env, w) then c
    else Collection(c.entries[WriteId(env, c, w) := Made(env, w, now)], true, true)
  }

  function Without(c: Collection, drop: Entry -> bool): Collection {
    c.(entries := map id | id in c.entries && !drop(c.entries[id]) :: c.entries[id])
  }

  /** If the collection vanished unnoticed, the deletion fails and nothing changes. */
  function Invalidated(c: Collection, repo: string): Collection {
    if c.ensured && !c.present then c else Without(Ensured(c), (e: Entry) => repo in e.repos)
  }

  /** The filters of a purge, together; an empty string and a non-positive age do not filter. */
  datatype Filter = Filter(repo: string, quality: string, olderThan: Option<int>, question: string)

  predicate NoFilter(f: Filter) {
    f.repo == "" && f.quality == "" && (f.olderThan.None? || f.olderThan.value <= 0) && f.question == ""
  }

  predicate Selects(env: Env, f: Filter, e: Entry, now: real) {
    && (f.repo != "" ==> f.repo in e.repos)
    && (f.quality != "" ==> f.quality == if e.low then "low" else "ok")
    && (f.olderThan.Some? && f.olderThan.value > 0 ==> e.createdAt < now - f.olderThan.value as real)
    && (f.question != "" ==> env.textMatches(e.question, f.question))
  }

  function Purged(env: Env, c: Collection, f: Filter, now: real): Collection {
    if c.ensured && !c.present then c
    else if NoFilter(f) then Ensured(c)
    else Without(Ensured(c), (e: Entry) => Selects(env, f, e, now))
  }

  /** `purge(all=True)` drops the collection and makes it again; on one that vanished unnoticed the drop fails. */
  function Cleared(c: Collection): Collection {
    if c.ensured && !c.present then c else Collection(map[], true, true)
  }

  /** Only the entry under the id without a scope is flagged. */
  function Flagged(env: Env, c: Collection, question: string): Collection {
    var id := PointId(env, question, "");
    if id in c.entries then c.(entries := c.entries[id := c.entries[id].(low := true)]) else c
  }

  // ----- the cache object -----

  class QAVectorCache {
    const env: Env
    var entries: map<string, Entry>     // the remote collection ...
    var present: bool                   // ... and whether it exists
    var ensured: bool

    ghost function State(): Collection
      reads this
    {
      Collection(entries, present, ensured)
    }

    constructor (env: Env, entries: map<string, Entry>, present: bool)
      requires Valid(Collection(entries, present, false))
      ensures this.env == env && State() == Collection(entries, present, false)
    {
      this.env, this.entries, this.present, ensured := env, entries, present, false;
    }

    method EnsureCollection()
      requires Valid(State())
      modifies this
      ensures State() == if old(ensured) then old(State()) else Ensured(old(State()))
      ensures ensured && (present <==> old(present) || !old(ensured)) && entries == old(entries)
    {
      if ensured {
        return;
      }
      if !present {
        present, entries := true, map[];
      }
      ensured := true;
    }

    /** The store's nearest-neighbour query with the shared-or-mine filter, by exhaustion. */
    method QueryTop(q: Query) returns (hit: Option<string>)
      ensures TopOf(env, entries, q, hit)
      ensures hit.Some? <==> exists id :: id in entries && MaySee(entries[id].scope, q.user)
      ensures hit.Some? ==>
                && hit.value in entries && MaySee(entries[hit.value].scope, q.user)
                && forall id :: id in entries && MaySee(entries[id].scope, q.user) ==>
                     env.score(q.embedding, entries[id].embedding)
                     <= env.score(q.embedding, entries[hit.value].embedding)
    {
      hit := None;
      var todo := entries.Keys;
      while todo != {}
        invariant todo <= entries.Keys
        invariant hit.Some? ==> hit.value in entries && Visible(entries[hit.value], q.user)
        invariant hit.None? ==> forall id :: id in entries && id !in todo ==> !Visible(entries[id], q.user)
        invariant hit.Some? ==> forall id :: id in entries && id !in todo && Visible(entries[id], q.user) ==>
                    env.score(q.embedding, entries[id].embedding)
                    <= env.score(q.embedding, entries[hit.value].embedding)
      {
        var id :| id in todo;
        if Visible(entries[id], q.user) {
          if hit.None? || env.score(q.embedding, entries[id].embedding)
                          > env.score(q.embedding, entries[hit.value].embedding) {
            hit := Some(id);
          }
        }
        todo := todo - {id};
      }
    }

    method Lookup(q: Query, now: real) returns (ghost top: Option<string>, hit: Option<Hit>)
      requires Valid(State())
      modifies this
      ensures State() == Ensured(old(State()))
      ensures TopOf(env, entries, q, top) && hit == Looked(env, entries, q, top, now)
      ensures hit.Some? <==>
                && top.Some? && top.value in entries
                && var e := entries[top.value];
                   && env.score(q.embedding, e.embedding) >= q.minScore.Or(Some(env.threshold)).value
                   && !e.low
                   && (q.text.Some? ==> env.discriminators(e.question) == env.discriminators(q.text.value))
                   && (e.createdAt == 0.0 || now <= e.createdAt + e.ttl as real
                       || (q.serveStale && now <= e.createdAt + e.ttl as real + 604800.0))
                   && !AnswerQuality.Degenerate(env.alphabet, e.answer)
      ensures hit.Some? ==>
                && hit.value.id == top.value && hit.value.entry == entries[top.value]
                && hit.value.similarity == env.score(q.embedding, hit.value.entry.embedding)
                && (hit.value.isStale <==>
                      hit.value.entry.createdAt != 0.0
                      && now > hit.value.entry.createdAt + hit.value.entry.ttl as real)
    {
      EnsureCollection();
      if !present {
        ensured := false;
        EnsureCollection();
        return None, None;
      }
      var id := QueryTop(q);
      top := id;
      if id.None? {
        return top, None;
      }
      var e := entries[id.value];
      var score := env.score(q.embedding, e.embedding);
      var floor := if q.minScore.None? then env.threshold else q.minScore.value;
      if score < floor {
        return top, None;
      }
      if e.low {
        return top, None;
      }
      if q.text.Some? {
        if env.discriminators(q.text.value) != env.discriminators(e.question) {
          return top, None;
        }
      }
      var age := now - e.createdAt;
      var isStale := false;
      if e.createdAt != 0.0 && age > e.ttl as real {
        if !q.serveStale {
          return top, None;
        }
        if age - e.ttl as real > MAX_STALE {
          return top, None;
        }
        isStale := true;
      }
      var degenerate := AnswerQuality.IsDegenerateAnswer(env.alphabet, e.answer);
      if degenerate {
        return top, None;
      }
      hit := Some(Hit(id.value, e, score, isStale));
    }

    method Store(w: Write, now: real)
      requires Valid(State())
      modifies this
      ensures State() == Stored(env, old(State()), w, now)
      ensures w.question == "" || w.answer == "" || AnswerQuality.Degenerate(env.alphabet, w.answer) ==>
                State() == old(State())
      ensures w.question != "" && w.answer != "" && !AnswerQuality.Degenerate(env.alphabet, w.answer) ==>
                && present && ensured
                && var retried := old(ensured) && !old(present);
                   var id := if w.scope == "" || retried then env.normalize(w.question)
                             else env.normalize(w.question) + "|scope:" + w.scope;
                   && id in entries
                   && (forall other :: other != id ==>
                         && (other in entries <==> other in old(entries))
                         && (other in entries ==> entries[other] == old(entries)[other]))
                   && var e := entries[id];
                      && e.question == w.question && e.answer == w.answer && e.embedding == w.embedding
                      && e.createdAt == now && !e.low
                      && e.scope == (if w.scope == "" then None else Some(w.scope))
                      && e.ttl == (if w.ttl.Some? && w.ttl.value != 0 then w.ttl.value else env.defaultTtl)
                      && e.repos == (if w.sourceRepos == {} then env.deriveRepos(w.sources) else w.sourceRepos)
    {
      if w.question == "" || w.answer == "" {
        return;
      }
      var degenerate := AnswerQuality.IsDegenerateAnswer(env.alphabet, w.answer);
      if degenerate {
        return;
      }
      EnsureCollection();
      var repos := if w.sourceRepos != {} then w.sourceRepos else env.deriveRepos(w.sources);
      var e := Entry(w.question, w.answer, w.embedding, repos, Ttl(env, w.ttl), now,
                     if w.scope != "" then Some(w.scope) else None, false);
      if present {
        entries := entries[PointId(env, w.question, w.scope) := e];
      } else {
        ensured := false;
        EnsureCollection();
        entries := entries[PointId(env, w.question, "") := e];
      }
    }

    method InvalidateRepo(repo: string)
      requires Valid(State())
      modifies this
      ensures State() == Invalidated(old(State()), repo)
      ensures forall id :: id in entries <==> id in old(entries) && repo !in old(entries)[id].repos
      ensures forall id :: id in entries ==> entries[id] == old(entries)[id]
    {
      EnsureCollection();
      if present {
        entries := map id | id in entries && repo !in entries[id].repos :: entries[id];
      }
    }

    method Purge(f: Filter, now: real)
      requires Valid(State())
      modifies this
      ensures State() == Purged(env, old(State()), f, now)
      ensures forall id :: id in entries ==> id in old(entries) && entries[id] == old(entries)[id]
      ensures forall id :: id in old(entries) && id !in entries <==>
                && id in old(entries)
                && (f.repo != "" || f.quality != "" || f.question != "" || (f.olderThan.Some? && f.olderThan.value > 0))
                && var e := old(entries)[id];
                   && (f.repo == "" || f.repo in e.repos)
                   && (f.quality == "" || (e.low && f.quality == "low") || (!e.low && f.quality == "ok"))
                   && (f.olderThan.None? || f.olderThan.value <= 0 || now - e.createdAt > f.olderThan.value as real)
                   && (f.question == "" || env.textMatches(e.question, f.question))
    {
      EnsureCollection();
      if NoFilter(f) {
        return;
      }
      if present {
        entries := map id | id in entries && !Selects(env, f, entries[id], now) :: entries[id];
      }
    }

    method PurgeAll()
      requires Valid(State())
      modifies this
      ensures State() == Cleared(old(State()))
      ensures entries == map[] && (present <==> old(present) || !old(ensured))
    {
      EnsureCollection();
      if present {
        entries, present, ensured := map[], false, false;
        EnsureCollection();
      }
    }

    method FlagLowQuality(question: string)
      modifies this`entries
      ensures State() == Flagged(env, old(State()), question)
      ensures forall id :: id in entries <==> id in old(entries)
      ensures forall id :: id in entries ==>
                entries[id] == if id == env.normalize(question) then old(entries)[id].(low := true) else old(entries)[id]
    {
      var id := PointId(env, question, "");
      if id in entries {
        entries := entries[id := entries[id].(low := true)];
      }
    }
  }
}
