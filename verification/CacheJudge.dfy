/** The judge of borderline cache hits (opsrag/qa_cache_judge.py, lines 60-256).

    The model's reply is a parameter, and so is the environment.  The module's globals are the fields of a class. */
module CacheJudge {

  import opened Options

  /** OPSRAG_QA_JUDGE, _UPPER (unset, not a number, or a number) and _FAIL_OPEN. */
  datatype Environment = Environment(enabled: bool, upper: Option<Option<real>>, failOpen: Option<bool>)

  datatype Settings = Settings(upper: real, failOpen: bool)

  const DEFAULTS := Settings(0.99, false)

  const JUDGE_LOWER := 0.93

  function Upper(env: Environment, s: Settings): real {
    if env.upper.Some? && env.upper.value.Some? then env.upper.value.value else s.upper
  }

  function FailOpen(env: Environment, s: Settings): bool {
    if env.failOpen.Some? then env.failOpen.value else s.failOpen
  }

  function Lower(minScore: Option<real>): real {
    if minScore.Some? && minScore.value > JUDGE_LOWER then minScore.value else JUDGE_LOWER
  }

  /** What the model says: which of the two words it uses, or that the call fails. */
  datatype Reply = Says(same: bool, different: bool) | Fails

  /** A hit as the judge sees it; `norm` is strip and lower. */
  datatype Case = Case(current: string, cached: string, cosine: real, minScore: Option<real>, bound: bool)

  predicate SameText(norm: string -> string, c: Case) { norm(c.current) == norm(c.cached) }

  /** The judge is on and bound, and has two different texts to compare. */
  predicate Comparable(env: Environment, norm: string -> string, c: Case) {
    env.enabled && c.bound && c.current != "" && c.cached != "" && !SameText(norm, c)
  }

  /** The model is asked exactly about such a hit in the band. */
  predicate Asked(env: Environment, s: Settings, norm: string -> string, c: Case) {
    && Comparable(env, norm, c)
    && Lower(c.minScore) <= c.cosine < Upper(env, s)
  }

  /** A hit above the band is let through without the model, and counted as that. */
  predicate HighConfidence(env: Environment, s: Settings, norm: string -> string, c: Case) {
    && Comparable(env, norm, c)
    && c.cosine >= Upper(env, s)
  }

  /** Then the hit is refused exactly if the model says it differs, or fails while failing closed. */
  predicate Refused(env: Environment, s: Settings, reply: Reply) {
    if reply.Fails? then !FailOpen(env, s) else reply.different && !reply.same
  }

  predicate Allowed(env: Environment, s: Settings, norm: string -> string, c: Case, reply: Reply) {
    Asked(env, s, norm, c) ==> !Refused(env, s, reply)
  }

  /** A hit is refused if and only if the judge is on and bound, the texts are there and differ, the score lies between
      0.93, or the category's floor if that is higher, and the upper bound, and the model says that they differ, or
      fails while nothing lets that pass.  What the environment sets wins over the settings. */
  lemma RefusedExactly(env: Environment, s: Settings, norm: string -> string, c: Case, reply: Reply)
    ensures var upper := if env.upper.Some? && env.upper.value.Some? then env.upper.value.value else s.upper;
            var failOpen := if env.failOpen.Some? then env.failOpen.value else s.failOpen;
            !Allowed(env, s, norm, c, reply) <==>
              && env.enabled && c.bound && c.current != "" && c.cached != "" && norm(c.current) != norm(c.cached)
              && c.cosine >= 0.93 && (c.minScore.Some? ==> c.cosine >= c.minScore.value) && c.cosine < upper
              && (reply == Says(false, true) || (reply.Fails? && !failOpen))
  {
  }

  /** The documented band, from the category's own floor, is judged in full exactly if it is empty, or the judge can
      compare the texts and the floor is not below 0.93. */
  lemma DocumentedBand(env: Environment, s: Settings, norm: string -> string, c: Case, floor: real)
    ensures (forall cosine: real :: InBand(floor, cosine, Upper(env, s)) ==>
               Asked(env, s, norm, c.(cosine := cosine, minScore := Some(floor))))
       <==> Upper(env, s) <= floor || (Comparable(env, norm, c) && floor >= JUDGE_LOWER)
  {
    if floor < Upper(env, s) {
      assert InBand(floor, floor, Upper(env, s));
    }
  }

  /** At the documented input, a FORENSIC hit at 0.925 over its floor of 0.92, the model is not asked, whatever else. */
  lemma ForensicNotAsked(env: Environment, s: Settings, norm: string -> string, c: Case, reply: Reply)
    requires c.cosine == 0.925 && c.minScore == Some(0.92)
    ensures !Asked(env, s, norm, c) && Allowed(env, s, norm, c, reply)
  {
  }

  predicate InBand(floor: real, cosine: real, upper: real) { floor <= cosine < upper }

  datatype JudgeStats = JudgeStats(calls: nat, yes: nat, no: nat, errors: nat, skippedHighConf: nat)

  class QaCacheJudge {
    var settings: Settings
    var stats: JudgeStats
    const norm: string -> string

    /** Every call is counted once more, as a yes, a no or an error. */
    ghost predicate Valid()
      reads this
    {
      stats.calls == stats.yes + stats.no + stats.errors
    }

    constructor (norm: string -> string)
      ensures Valid() && settings == Settings(0.99, false) && stats == JudgeStats(0, 0, 0, 0, 0) && this.norm == norm
    {
      settings, stats, this.norm := DEFAULTS, JudgeStats(0, 0, 0, 0, 0), norm;
    }

    method Configure(upper: Option<real>, failOpen: Option<bool>)
      modifies this`settings
      ensures upper.Some? ==> settings.upper == upper.value
      ensures upper.None? ==> settings.upper == old(settings.upper)
      ensures failOpen.Some? ==> settings.failOpen == failOpen.value
      ensures failOpen.None? ==> settings.failOpen == old(settings.failOpen)
    {
      if upper.Some? {
        settings := settings.(upper := upper.value);
      }
      if failOpen.Some? {
        settings := settings.(failOpen := failOpen.value);
      }
    }

    method JudgeMatch(env: Environment, c: Case, reply: Reply) returns (ok: bool)
      requires Valid()
      modifies this`stats
      ensures Valid() && ok == Allowed(env, settings, norm, c, reply)
      ensures var upper := if env.upper.Some? && env.upper.value.Some? then env.upper.value.value else settings.upper;
              var failOpen := if env.failOpen.Some? then env.failOpen.value else settings.failOpen;
              !ok <==>
                && env.enabled && c.bound && c.current != "" && c.cached != "" && norm(c.current) != norm(c.cached)
                && c.cosine >= 0.93 && (c.minScore.Some? ==> c.cosine >= c.minScore.value) && c.cosine < upper
                && (reply == Says(false, true) || (reply.Fails? && !failOpen))
      ensures var upper := if env.upper.Some? && env.upper.value.Some? then env.upper.value.value else settings.upper;
              var compared := env.enabled && c.bound && c.current != "" && c.cached != ""
                              && norm(c.current) != norm(c.cached);
              var asked := compared && c.cosine >= 0.93 && (c.minScore.Some? ==> c.cosine >= c.minScore.value)
                           && c.cosine < upper;
              && stats.calls == old(stats.calls) + (if asked then 1 else 0)
              && stats.no == old(stats.no) + (if asked && reply == Says(false, true) then 1 else 0)
              && stats.errors == old(stats.errors) + (if asked && reply == Fails then 1 else 0)
              && stats.skippedHighConf == old(stats.skippedHighConf) + (if compared && c.cosine >= upper then 1 else 0)
      ensures stats.calls == old(stats.calls) + if Asked(env, settings, norm, c) then 1 else 0
      ensures stats.skippedHighConf
           == old(stats.skippedHighConf) + if HighConfidence(env, settings, norm, c) then 1 else 0
      ensures stats.errors == old(stats.errors) + if Asked(env, settings, norm, c) && reply.Fails? then 1 else 0
      ensures stats.no == old(stats.no) + if Asked(env, settings, norm, c) && reply.Says? && !ok then 1 else 0
    {
      if !env.enabled || !c.bound {
        return true;
      }
      if c.current == "" || c.cached == "" {
        return true;
      }
      if norm(c.current) == norm(c.cached) {
        return true;
      }
      if c.cosine >= Upper(env, settings) {
        stats := stats.(skippedHighConf := stats.skippedHighConf + 1);
        return true;
      }
      var lower := if c.minScore.Some? then Max(c.minScore.value, JUDGE_LOWER) else JUDGE_LOWER;
      if c.cosine < lower {
        return true;
      }
      stats := stats.(calls := stats.calls + 1);
      match reply {
        case Says(same, different) =>
          if different && !same {
            stats := stats.(no := stats.no + 1);
            return false;
          }
          stats := stats.(yes := stats.yes + 1);
          return true;
        case Fails =>
          stats := stats.(errors := stats.errors + 1);
          return FailOpen(env, settings);
      }
    }
  }

  function Max(a: real, b: real): real { if a >= b then a else b }
}
