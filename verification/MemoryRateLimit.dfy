/** The in-process rate-limit backend (opsrag/api/rate_limit_backend.py, lines 84-152): a sliding-window log of
    request times per key, and a failed-login counter with a temporary lockout per key.

    Clock readings are parameters.  They are seconds as reals. */
module MemoryRateLimit {

  import opened Options

  datatype RateDecision = RateDecision(allowed: bool, remaining: int, retryAfter: int)

  datatype Attempts = Attempts(count: nat, firstTs: real, lockedUntil: real)

  datatype LoginPolicy = LoginPolicy(maxAttempts: int, windowSeconds: real, lockoutSeconds: real)

  /** int(): truncation toward zero. */
  function Truncate(x: real): int { if x >= 0.0 then x.Floor else -(-x).Floor }

  // ----- sliding window -----

  /** The times later than `start`, in order. */
  function Prune(times: seq<real>, start: real): seq<real> {
    if times == [] then []
    else if times[0] > start then [times[0]] + Prune(times[1..], start)
    else Prune(times[1..], start)
  }

  lemma {:induction false} PruneEmpty(times: seq<real>, start: real)
    ensures Prune(times, start) == [] <==> forall t :: t in times ==> t <= start
  {
    if times != [] {
      PruneEmpty(times[1..], start);
      assert times[0] in times && forall t :: t in times <==> t == times[0] || t in times[1..];
      assert times[0] > start ==> |Prune(times, start)| > 0;
    }
  }

  /** With a limit below 1 and nothing in the window, `hit` indexes an empty list and raises. */
  predicate Answers(log: seq<real>, now: real, limit: int, window: real) {
    limit >= 1 || Prune(log, now - window) != []
  }

  /** What `hit` answers at `now` when `log` holds the earlier hits it let through. */
  function Decide(log: seq<real>, now: real, limit: int, window: real): RateDecision
    requires Answers(log, now, limit, window)
  {
    var live := Prune(log, now - window);
    if |live| >= limit
    then RateDecision(false, 0, Truncate(window - (now - live[0])) + 1)
    else RateDecision(true, if limit - (|live| + 1) > 0 then limit - (|live| + 1) else 0, 0)
  }

  /** The list `hit` keeps afterwards. */
  function Kept(log: seq<real>, now: real, limit: int, window: real): seq<real> {
    var live := Prune(log, now - window);
    if |live| < limit then live + [now] else live
  }

  // ----- login lockout -----

  /** The record a failure at `now` counts into: the present one unless its window has passed. */
  function Counting(a: Option<Attempts>, now: real, p: LoginPolicy): Attempts {
    if a.None? || now - a.value.firstTs > p.windowSeconds then Attempts(0, now, 0.0) else a.value
  }

  function Failed(a: Option<Attempts>, now: real, p: LoginPolicy): Attempts {
    var c := Counting(a, now, p);
    Attempts(c.count + 1, c.firstTs, if c.count + 1 >= p.maxAttempts then now + p.lockoutSeconds else c.lockedUntil)
  }

  predicate Locked(a: Option<Attempts>, now: real) { a.Some? && a.value.lockedUntil > now }

  function RetryAfter(a: Option<Attempts>, now: real): int {
    if !Locked(a, now) then 0 else Truncate(a.value.lockedUntil - now) + 1
  }

  // ----- the backend -----

  class MemoryRateLimitBackend {
    var buckets: map<string, seq<real>>
    var login: map<string, Attempts>

    constructor ()
      ensures buckets == map[] && login == map[]
    {
      buckets, login := map[], map[];
    }

    function Bucket(key: string): seq<real>
      reads this
    {
      if key in buckets then buckets[key] else []
    }

    function Login(key: string): Option<Attempts>
      reads this
    {
      if key in login then Some(login[key]) else None
    }

    /** None where the source raises IndexError. */
    method Hit(key: string, limit: int, window: real, now: real) returns (d: Option<RateDecision>)
      modifies this`buckets
      ensures d.None? <==> !Answers(old(Bucket(key)), now, limit, window)
      ensures d.None? <==> limit < 1 && forall t :: t in old(Bucket(key)) ==> t <= now - window
      ensures d.Some? ==> d.value == Decide(old(Bucket(key)), now, limit, window)
      ensures buckets == old(buckets)[key := Kept(old(Bucket(key)), now, limit, window)]
    {
      var windowStart := now - window;
      var timestamps := Prune(Bucket(key), windowStart);
      PruneEmpty(Bucket(key), windowStart);
      buckets := buckets[key := timestamps];
      if |timestamps| >= limit {  // the kept list is stored already
        if timestamps == [] {
          return None;
        }
        var retryAfter := Truncate(window - (now - timestamps[0])) + 1;
        return Some(RateDecision(false, 0, retryAfter));
      }
      timestamps := timestamps + [now];
      buckets := buckets[key := timestamps];
      var remaining := if limit - |timestamps| > 0 then limit - |timestamps| else 0;
      d := Some(RateDecision(true, remaining, 0));
    }

    method RecordLoginFailure(key: string, p: LoginPolicy, now: real) returns (locked: bool)
      modifies this`login
      ensures login == old(login)[key := Failed(old(Login(key)), now, p)]
      ensures locked <==> login[key].count >= p.maxAttempts
    {
      var a := if key in login then login[key] else Attempts(0, now, 0.0);
      if key !in login || now - a.firstTs > p.windowSeconds {
        a := Attempts(0, now, 0.0);
        login := login[key := a];
      }
      a := a.(count := a.count + 1);
      login := login[key := a];
      if a.count >= p.maxAttempts {
        a := a.(lockedUntil := now + p.lockoutSeconds);
        login := login[key := a];
        return true;
      }
      return false;
    }

    method RecordLoginSuccess(key: string)
      modifies this`login
      ensures login == old(login) - {key}
    {
      login := login - {key};
    }

    method LoginLocked(key: string, now: real) returns (locked: bool)
      ensures locked <==> Locked(Login(key), now)
      ensures locked <==> key in login && now < login[key].lockedUntil
    {
      locked := key in login && login[key].lockedUntil > now;
    }

    method LoginRetryAfter(key: string, now: real) returns (seconds: int)
      ensures seconds == RetryAfter(Login(key), now)
      ensures key !in login || login[key].lockedUntil <= now ==> seconds == 0
      ensures key in login && now < login[key].lockedUntil ==>
                seconds >= 1 && now + seconds as real - 1.0 <= login[key].lockedUntil < now + seconds as real
    {
      if key !in login || login[key].lockedUntil <= now {
        return 0;
      }
      return Truncate(login[key].lockedUntil - now) + 1;
    }
  }

  // ----- runs of hits -----

  datatype Hit = Hit(key: string, at: real)

  /** `buckets` after a run of hits under one limit and window. */
  function Buckets(hits: seq<Hit>, limit: int, window: real): map<string, seq<real>>
    requires limit >= 1
    decreases |hits|
  {
    if hits == [] then map[]
    else
      var b, h := Buckets(hits[..|hits| - 1], limit, window), hits[|hits| - 1];
      b[h.key := Kept(if h.key in b then b[h.key] else [], h.at, limit, window)]
  }

  /** The times of one key's hits. */
  function TimesOf(hits: seq<Hit>, key: string): seq<real> {
    if hits == [] then []
    else TimesOf(hits[..|hits| - 1], key) + if hits[|hits| - 1].key == key then [hits[|hits| - 1].at] else []
  }

  /** The pruned list one key is left with by hits at these times. */
  function Log(times: seq<real>, limit: int, window: real): seq<real>
    requires limit >= 1
  {
    if times == [] then []
    else Kept(Log(times[..|times| - 1], limit, window), times[|times| - 1], limit, window)
  }

  /** The reference: every hit let through is remembered for ever, and the window is counted afresh each time. */
  function FullLog(times: seq<real>, limit: int, window: real): seq<real>
    requires limit >= 1
  {
    if times == [] then []
    else Remembered(FullLog(times[..|times| - 1], limit, window), times[|times| - 1], limit, window)
  }

  function Remembered(all: seq<real>, now: real, limit: int, window: real): seq<real> {
    if InWindow(all, now, window) < limit then all + [now] else all
  }

  /** How many of the times lie in (now - window, now]. */
  function InWindow(times: seq<real>, now: real, window: real): nat {
    if times == [] then 0
    else (if now - window < times[0] <= now then 1 else 0) + InWindow(times[1..], now, window)
  }

  ghost predicate Ordered(times: seq<real>) { forall i, j :: 0 <= i < j < |times| ==> times[i] <= times[j] }

  ghost predicate UpTo(times: seq<real>, now: real) { forall i :: 0 <= i < |times| ==> times[i] <= now }

  lemma {:induction false} PruneSnoc(times: seq<real>, t: real, start: real)
    ensures Prune(times + [t], start) == if t > start then Prune(times, start) + [t] else Prune(times, start)
  {
    if times == [] {
      assert [] + [t] == [t] && [t][1..] == [] && [] + [t] == [t] + [];
    } else {
      assert (times + [t])[1..] == times[1..] + [t];
      PruneSnoc(times[1..], t, start);
    }
  }

  lemma {:induction false} PruneTwice(times: seq<real>, a: real, b: real)
    requires a <= b
    ensures Prune(Prune(times, a), b) == Prune(times, b)
  {
    if times != [] {
      PruneTwice(times[1..], a, b);
      if times[0] > a {
        assert ([times[0]] + Prune(times[1..], a))[1..] == Prune(times[1..], a);
      }
    }
  }

  lemma {:induction false} PruneKeepsAll(times: seq<real>, start: real)
    requires forall i :: 0 <= i < |times| ==> times[i] > start
    ensures Prune(times, start) == times
  {
    if times != [] {
      PruneKeepsAll(times[1..], start);
    }
  }

  /** Pruning drops the first `k` times and keeps the rest. */
  ghost predicate PrunedAt(times: seq<real>, start: real, k: int) {
    && 0 <= k <= |times| && Prune(times, start) == times[k..]
    && (forall i :: 0 <= i < k ==> times[i] <= start)
    && (forall i :: k <= i < |times| ==> times[i] > start)
  }

  lemma {:induction false} PruneIsSuffix(times: seq<real>, start: real)
    requires Ordered(times)
    ensures PrunedAt(times, start, |times| - |Prune(times, start)|)
  {
    if times != [] {
      if times[0] > start {
        PruneKeepsAll(times, start);
      } else {
        PruneIsSuffix(times[1..], start);
        var k := |times[1..]| - |Prune(times[1..], start)|;
        assert times[1..][k..] == times[k + 1..];
        assert forall i :: 0 < i < |times| ==> times[i] == times[1..][i - 1];
      }
    }
  }

  lemma {:induction false} InWindowIsPruned(times: seq<real>, now: real, window: real)
    requires UpTo(times, now)
    ensures InWindow(times, now, window) == |Prune(times, now - window)|
  {
    if times != [] {
      assert UpTo(times[1..], now);
      InWindowIsPruned(times[1..], now, window);
    }
  }

  /** Hits of other keys do not touch a key's list. */
  lemma {:induction false} BucketsByKey(hits: seq<Hit>, key: string, limit: int, window: real)
    requires limit >= 1
    ensures var b := Buckets(hits, limit, window);
            (if key in b then b[key] else []) == Log(TimesOf(hits, key), limit, window)
    decreases |hits|
  {
    if hits != [] {
      var front, h := hits[..|hits| - 1], hits[|hits| - 1];
      BucketsByKey(front, key, limit, window);
      if h.key == key {
        var ts := TimesOf(front, key);
        assert (ts + [h.at])[..|ts|] == ts && TimesOf(hits, key) == ts + [h.at];
      } else {
        assert TimesOf(hits, key) == TimesOf(front, key) + [] == TimesOf(front, key);
      }
    }
  }

  ghost predicate Spaced(all: seq<real>, limit: int, window: real) {
    forall i, j :: 0 <= i < j < |all| && j >= i + limit ==> all[j] - all[i] >= window
  }

  /** The pruned list is what the reference log still has in the window at any later time. */
  ghost predicate Agree(kept: seq<real>, all: seq<real>, now: real, window: real) {
    Prune(kept, now - window) == Prune(all, now - window)
  }

  lemma HitAgrees(kept: seq<real>, all: seq<real>, t: real, limit: int, window: real, now: real)
    requires limit >= 1 && t <= now && UpTo(all, t) && Agree(kept, all, t, window)
    ensures Agree(Kept(kept, t, limit, window), Remembered(all, t, limit, window), now, window)
  {
    var live := Prune(kept, t - window);
    InWindowIsPruned(all, t, window);
    assert Kept(kept, t, limit, window) == if InWindow(all, t, window) < limit then live + [t] else live;
    PrunedAgain(kept, all, t, window, now);
    PruneSnoc(live, t, now - window);
    PruneSnoc(all, t, now - window);
  }

  lemma PrunedAgain(kept: seq<real>, all: seq<real>, t: real, window: real, now: real)
    requires t <= now && Agree(kept, all, t, window)
    ensures Prune(Prune(kept, t - window), now - window) == Prune(all, now - window)
  {
    PruneTwice(all, t - window, now - window);
  }

  lemma {:induction false} HitSpaced(all: seq<real>, t: real, limit: int, window: real)
    requires limit >= 1 && Ordered(all) && UpTo(all, t) && Spaced(all, limit, window)
    requires InWindow(all, t, window) < limit
    ensures Spaced(all + [t], limit, window)
  {
    InWindowIsPruned(all, t, window);
    PruneIsSuffix(all, t - window);
  }

  lemma HitKeeps(all: seq<real>, t: real, limit: int, window: real)
    requires limit >= 1 && Ordered(all) && UpTo(all, t) && Spaced(all, limit, window)
    ensures var all' := Remembered(all, t, limit, window);
            Ordered(all') && UpTo(all', t) && Spaced(all', limit, window)
  {
    if InWindow(all, t, window) < limit {
      HitSpaced(all, t, limit, window);
    }
  }

  /** What a run of hits keeps. */
  lemma {:induction false} RunInv(times: seq<real>, limit: int, window: real, now: real)
    requires limit >= 1 && Ordered(times) && UpTo(times, now)
    ensures var all := FullLog(times, limit, window);
            && Ordered(all) && UpTo(all, now) && Spaced(all, limit, window)
            && Agree(Log(times, limit, window), all, now, window)
            && InWindow(all, now, window) == |Prune(all, now - window)|
    decreases |times|
  {
    if times != [] {
      var front, t := times[..|times| - 1], times[|times| - 1];
      RunInv(front, limit, window, t);
      HitKeeps(FullLog(front, limit, window), t, limit, window);
      HitAgrees(Log(front, limit, window), FullLog(front, limit, window), t, limit, window, now);
    }
    InWindowIsPruned(FullLog(times, limit, window), now, window);
  }

  lemma {:induction false} WindowAtMostLimit(all: seq<real>, limit: int, window: real, now: real)
    requires limit >= 1 && Ordered(all) && UpTo(all, now) && Spaced(all, limit, window)
    ensures |Prune(all, now - window)| <= limit
  {
    PruneIsSuffix(all, now - window);
    if |all| > limit {
      assert all[|all| - 1] - all[|all| - 1 - limit] >= window;
    }
  }

  /** Refinement: the pruned list lets the same hits through as a log that forgets nothing. */
  lemma {:induction false} PrunedDecidesAsFull(times: seq<real>, limit: int, window: real, now: real)
    requires limit >= 1 && Ordered(times) && UpTo(times, now)
    ensures Decide(Log(times, limit, window), now, limit, window) == Decide(FullLog(times, limit, window), now, limit, window)
  {
    RunInv(times, limit, window, now);
  }

  /** Safety: any `limit + 1` consecutive hits let through span at least the window. */
  lemma {:induction false} ConsecutiveHitsSpanWindow(times: seq<real>, limit: int, window: real, i: nat)
    requires limit >= 1 && Ordered(times) && i + limit < |FullLog(times, limit, window)|
    ensures FullLog(times, limit, window)[i + limit] - FullLog(times, limit, window)[i] >= window
  {
    if times != [] {
      RunInv(times, limit, window, times[|times| - 1]);
    }
  }

  /** A hit is refused only when exactly `limit` hits let through lie in the window. */
  lemma {:induction false} RefusedIffWindowFull(times: seq<real>, limit: int, window: real, now: real)
    requires limit >= 1 && Ordered(times) && UpTo(times, now)
    ensures !Decide(Log(times, limit, window), now, limit, window).allowed
            <==> InWindow(FullLog(times, limit, window), now, window) == limit
  {
    RunInv(times, limit, window, now);
    WindowAtMostLimit(FullLog(times, limit, window), limit, window, now);
  }

  /** A hit let through is told how much of the limit is left in its window, itself counted. */
  lemma {:induction false} RemainingIsLeft(times: seq<real>, limit: int, window: real, now: real)
    requires limit >= 1 && window > 0.0 && Ordered(times) && UpTo(times, now)
    requires Decide(Log(times, limit, window), now, limit, window).allowed
    ensures Decide(Log(times, limit, window), now, limit, window).remaining
         == limit - InWindow(FullLog(times + [now], limit, window), now, window)
  {
    var all := FullLog(times, limit, window);
    RunInv(times, limit, window, now);
    PrunedDecidesAsFull(times, limit, window, now);
    FullLogSnoc(times, now, limit, window);
    OneMore(all, now, window);
  }

  lemma {:induction false} FullLogSnoc(times: seq<real>, t: real, limit: int, window: real)
    requires limit >= 1
    ensures FullLog(times + [t], limit, window) == Remembered(FullLog(times, limit, window), t, limit, window)
  {
    assert (times + [t])[..|times|] == times;
  }

  lemma {:induction false} OneMore(all: seq<real>, now: real, window: real)
    requires window > 0.0 && UpTo(all, now)
    ensures InWindow(all + [now], now, window) == InWindow(all, now, window) + 1
  {
    InWindowIsPruned(all, now, window);
    InWindowIsPruned(all + [now], now, window);
    PruneSnoc(all, now, now - window);
  }

  lemma TruncateBounds(x: real)
    requires x >= 0.0
    ensures Truncate(x) as real <= x < Truncate(x) as real + 1.0
  {
  }

  lemma PrefixOrdered(times: seq<real>, now: real, whole: seq<real>, later: real)
    requires times + [now] <= whole && Ordered(whole) && UpTo(whole, later)
    ensures Ordered(times) && UpTo(times, now) && now <= later
  {
    assert whole[|times|] == (times + [now])[|times|] == now;
    assert forall i :: 0 <= i < |times| ==> times[i] == (times + [now])[i] == whole[i];
  }

  /** Two-sided retry bound.  After a refusal at `now` that says "retry after r", with nothing let through since: a
      hit at or after now + r is let through, and one before now + r - 1 is refused. */
  lemma {:induction false} RetryBounds(times: seq<real>, whole: seq<real>, limit: int, window: real, now: real,
                                       later: real)
    requires limit >= 1 && Ordered(whole) && UpTo(whole, later) && times + [now] <= whole
    requires !Decide(Log(times, limit, window), now, limit, window).allowed
    requires FullLog(whole, limit, window) == FullLog(times, limit, window)
    ensures var r := Decide(Log(times, limit, window), now, limit, window).retryAfter;
            var answer := Decide(Log(whole, limit, window), later, limit, window);
            && r >= 1
            && (later >= now + r as real ==> answer.allowed)
            && (later < now + r as real - 1.0 ==> !answer.allowed)
  {
    PrefixOrdered(times, now, whole, later);
    RefusedThenRetried(times, whole, limit, window, now, later);
  }

  lemma {:induction false} RefusedThenRetried(times: seq<real>, whole: seq<real>, limit: int, window: real, now: real,
                                              later: real)
    requires limit >= 1 && now <= later
    requires Ordered(times) && UpTo(times, now) && Ordered(whole) && UpTo(whole, later)
    requires !Decide(Log(times, limit, window), now, limit, window).allowed
    requires FullLog(whole, limit, window) == FullLog(times, limit, window)
    ensures var r := Decide(Log(times, limit, window), now, limit, window).retryAfter;
            var answer := Decide(Log(whole, limit, window), later, limit, window);
            && r >= 1
            && (later >= now + r as real ==> answer.allowed)
            && (later < now + r as real - 1.0 ==> !answer.allowed)
  {
    var all := FullLog(times, limit, window);
    RunInv(times, limit, window, now);
    WindowAtMostLimit(all, limit, window, now);
    PrunedDecidesAsFull(times, limit, window, now);
    PrunedDecidesAsFull(whole, limit, window, later);
    FullWindowRetry(all, limit, window, now, later);
  }

  lemma FullWindowRetry(all: seq<real>, limit: int, window: real, now: real, later: real)
    requires limit >= 1 && Ordered(all) && now <= later && |Prune(all, now - window)| == limit
    requires UpTo(all, now)
    ensures var r := Decide(all, now, limit, window).retryAfter;
            && r >= 1
            && (later >= now + r as real ==> |Prune(all, later - window)| < limit)
            && (later < now + r as real - 1.0 ==> |Prune(all, later - window)| >= limit)
  {
    PruneIsSuffix(all, now - window);
    PruneIsSuffix(all, later - window);
    var k := |all| - limit;
    assert Prune(all, now - window)[0] == all[k] > now - window;
    TruncateBounds(window - (now - all[k]));
  }

  // ----- runs of login outcomes -----

  datatype LoginEvent = Failure(at: real) | Success(at: real)

  function LoginStep(a: Option<Attempts>, e: LoginEvent, p: LoginPolicy): Option<Attempts> {
    if e.Success? then None else Some(Failed(a, e.at, p))
  }

  function LoginRun(events: seq<LoginEvent>, p: LoginPolicy): Option<Attempts> {
    if events == [] then None
    else LoginStep(LoginRun(events[..|events| - 1], p), events[|events| - 1], p)
  }

  /** The failures since the last success. */
  function Failures(events: seq<LoginEvent>): seq<real> {
    if events == [] || events[|events| - 1].Success? then []
    else Failures(events[..|events| - 1]) + [events[|events| - 1].at]
  }

  ghost predicate ClockOrdered(events: seq<LoginEvent>) {
    forall i, j :: 0 <= i < j < |events| ==> events[i].at <= events[j].at
  }

  /** The record counts exactly the last `count` failures: they start at `firstTs` and fit in its window. */
  ghost predicate CountsTail(a: Option<Attempts>, failures: seq<real>, p: LoginPolicy) {
    match a
    case None => failures == []
    case Some(r) =>
      var k := |failures| - r.count;
      && 0 <= k < |failures|
      && failures[k] == r.firstTs
      && (forall i :: k < i < |failures| ==> failures[i] - failures[k] <= p.windowSeconds)
      && (r.lockedUntil == 0.0 || r.count >= p.maxAttempts)
      && (r.count >= p.maxAttempts ==> r.lockedUntil == failures[|failures| - 1] + p.lockoutSeconds)
  }

  lemma {:induction false} LoginRunInv(events: seq<LoginEvent>, p: LoginPolicy)
    ensures CountsTail(LoginRun(events, p), Failures(events), p)
    decreases |events|
  {
    if events != [] {
      LoginRunInv(events[..|events| - 1], p);
    }
  }

  /** Where the group that counts starts, from the times of the failures alone: the groups follow each other, and a
      failure more than a window after the first of a group starts the next one. */
  function GroupStart(failures: seq<real>, window: real): (k: nat)
    requires failures != []
    ensures k < |failures|
    ensures forall i :: k < i < |failures| ==> failures[i] - failures[k] <= window
    ensures k > 0 ==> failures[k] - failures[GroupStart(failures[..k], window)] > window
  {
    var n := |failures| - 1;
    if n == 0 then 0
    else
      var k := GroupStart(failures[..n], window);
      assert failures[..n][..k] == failures[..k];
      if failures[n] - failures[k] > window then n else k
  }

  /** In every run the record is decided by the failures since the last success: it counts the last group of them, and
      the lock runs from the last failure exactly if the group has reached the maximum. */
  lemma {:induction false} RecordExactly(events: seq<LoginEvent>, p: LoginPolicy)
    ensures var f, a := Failures(events), LoginRun(events, p);
            && (a.None? <==> f == [])
            && (a.Some? ==>
                  var k := GroupStart(f, p.windowSeconds);
                  && a.value.firstTs == f[k] && a.value.count == |f| - k
                  && a.value.lockedUntil == if |f| - k >= p.maxAttempts then f[|f| - 1] + p.lockoutSeconds else 0.0)
    decreases |events|
  {
    if events != [] {
      var front, e := events[..|events| - 1], events[|events| - 1];
      RecordExactly(front, p);
      if e.Failure? {
        assert Failures(events)[..|Failures(front)|] == Failures(front);
      }
    }
  }

  /** So in every run a key is locked at `t` if and only if the last group of its failures has reached the maximum and
      less than the lockout time has passed since the last of them. */
  lemma {:induction false} LockedExactly(events: seq<LoginEvent>, p: LoginPolicy, t: real)
    requires t >= 0.0
    ensures var f := Failures(events);
            Locked(LoginRun(events, p), t) <==>
              && f != [] && |f| - GroupStart(f, p.windowSeconds) >= p.maxAttempts
              && t < f[|f| - 1] + p.lockoutSeconds
  {
    RecordExactly(events, p);
  }

  /** Enough failures within one window, with no success among them, lock the key. */
  lemma {:induction false} EnoughFailuresLock(events: seq<LoginEvent>, p: LoginPolicy)
    requires var f := Failures(events);
             f != [] && |f| >= p.maxAttempts && forall i :: 0 <= i < |f| ==> f[i] - f[0] <= p.windowSeconds
    ensures var f, a := Failures(events), LoginRun(events, p);
            && a.Some? && a.value.count == |f| && a.value.firstTs == f[0]
            && a.value.lockedUntil == f[|f| - 1] + p.lockoutSeconds
  {
    RecordExactly(events, p);
    FirstGroup(Failures(events), p.windowSeconds);
  }

  lemma {:induction false} FirstGroup(failures: seq<real>, window: real)
    requires failures != [] && forall i :: 0 < i < |failures| ==> failures[i] - failures[0] <= window
    ensures GroupStart(failures, window) == 0
    decreases |failures|
  {
    if |failures| > 1 {
      FirstGroup(failures[..|failures| - 1], window);
    }
  }

  /** The failures from the k-th on are at least `maxAttempts`, all within the window of the k-th. */
  ghost predicate GroupFrom(failures: seq<real>, k: int, p: LoginPolicy) {
    && 0 <= k < |failures| && |failures| - k >= p.maxAttempts
    && forall i :: k < i < |failures| ==> failures[i] - failures[k] <= p.windowSeconds
  }

  /** A failure that locks the key is at least the `maxAttempts`-th of a group of consecutive failures, none since
      followed by a success, that all lie within the window of the first of them. */
  lemma {:induction false} LockNeedsAttempts(events: seq<LoginEvent>, now: real, p: LoginPolicy)
    requires Failed(LoginRun(events, p), now, p).count >= p.maxAttempts
    ensures exists k :: GroupFrom(Failures(events + [Failure(now)]), k, p)
  {
    var run := events + [Failure(now)];
    assert run[..|events|] == events;
    LoginRunInv(run, p);
    assert GroupFrom(Failures(run), |Failures(run)| - LoginRun(run, p).value.count, p);
  }

  /** Left alone, a locked key is locked exactly until `lockedUntil`, and the wait it is told is right to the second. */
  lemma LockLasts(a: Attempts, now: real, later: real)
    requires Locked(Some(a), now) && later >= now
    ensures Locked(Some(a), later) <==> later < a.lockedUntil
    ensures var r := RetryAfter(Some(a), now);
            && r >= 1
            && (later >= now + r as real ==> !Locked(Some(a), later))
            && (later < now + r as real - 1.0 ==> Locked(Some(a), later))
  {
    TruncateBounds(a.lockedUntil - now);
  }

  /** Nothing is recorded while the key is locked, as the login handler intends. */
  ghost predicate Guarded(events: seq<LoginEvent>, p: LoginPolicy) {
    forall i :: 0 <= i < |events| ==> !Locked(LoginRun(events[..i], p), events[i].at)
  }

  lemma NextAfterLock(events: seq<LoginEvent>, p: LoginPolicy, i: nat)
    requires i + 1 < |events| && Guarded(events, p) && Locking(events, p, i)
    ensures events[i + 1].at >= events[i].at + p.lockoutSeconds
  {
    assert events[..i + 1][..i] == events[..i];
    assert !Locked(LoginRun(events[..i + 1], p), events[i + 1].at);
  }

  /** The i-th event is a failure that locks the key. */
  predicate Locking(events: seq<LoginEvent>, p: LoginPolicy, i: nat) {
    i < |events| && events[i].Failure? && LoginRun(events[..i + 1], p).value.count >= p.maxAttempts
  }

  /** How many of the events have happened by `t`. */
  function SeenBy(events: seq<LoginEvent>, t: real): (n: nat)
    ensures n <= |events| && forall j :: n <= j < |events| ==> events[j].at > t
    ensures n > 0 ==> events[n - 1].at <= t
  {
    if events == [] then 0
    else if events[|events| - 1].at <= t then |events|
    else SeenBy(events[..|events| - 1], t)
  }

  /** The key's record at time `t`. */
  function RecordAt(events: seq<LoginEvent>, p: LoginPolicy, t: real): Option<Attempts> {
    LoginRun(events[..SeenBy(events, t)], p)
  }

  lemma {:induction false} NothingUntil(events: seq<LoginEvent>, p: LoginPolicy, i: nat, t: real)
    requires ClockOrdered(events) && Guarded(events, p) && Locking(events, p, i)
    requires events[i].at <= t < events[i].at + p.lockoutSeconds
    ensures SeenBy(events, t) == i + 1
  {
    SeenSo(events, i, t);
    if i + 1 < |events| {
      NextAfterLock(events, p, i);
      SeenSo(events, i + 1, t);
    }
  }

  lemma {:induction false} SeenSo(events: seq<LoginEvent>, j: nat, t: real)
    requires ClockOrdered(events) && j < |events|
    ensures j < SeenBy(events, t) <==> events[j].at <= t
  {
    var n := SeenBy(events, t);
    assert j < n ==> events[j].at <= events[n - 1].at;
  }

  lemma {:induction false} LockingRecord(events: seq<LoginEvent>, p: LoginPolicy, i: nat)
    requires Locking(events, p, i)
    ensures LoginRun(events[..i + 1], p).value.lockedUntil == events[i].at + p.lockoutSeconds
  {
    assert events[..i + 1][..i] == events[..i];
  }

  /** If nothing is recorded while the key is locked, a failure that locks it does so at every instant of the lockout
      time, and from its end on no longer, until something else is recorded. */
  lemma {:induction false} GuardedLockHolds(events: seq<LoginEvent>, p: LoginPolicy, i: nat, t: real)
    requires ClockOrdered(events) && Guarded(events, p) && Locking(events, p, i) && t >= events[i].at
    ensures var until := events[i].at + p.lockoutSeconds;
            && (t < until ==> Locked(RecordAt(events, p, t), t))
            && (t >= until && SeenBy(events, t) == i + 1 ==> !Locked(RecordAt(events, p, t), t))
  {
    LockingRecord(events, p, i);
    if t < events[i].at + p.lockoutSeconds {
      NothingUntil(events, p, i, t);
    }
  }

  /** A failure recorded while the key is locked, as when two logins race past the check: it renews the lock, except
      that it clears it when the counted window has passed and one attempt is not enough to lock. */
  lemma {:induction false} FailureWhileLocked(events: seq<LoginEvent>, now: real, p: LoginPolicy)
    requires p.lockoutSeconds > 0.0 && now >= 0.0 && Locked(LoginRun(events, p), now)
    ensures var a := LoginRun(events, p).value;
            var a' := Failed(Some(a), now, p);
            && (Locked(Some(a'), now) <==> !(now - a.firstTs > p.windowSeconds && p.maxAttempts > 1))
            && (Locked(Some(a'), now) ==> a'.lockedUntil == now + p.lockoutSeconds)
  {
    LoginRunInv(events, p);
  }
}
