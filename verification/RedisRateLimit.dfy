/** The fixed-window request limiter that replicas share through Redis
    (opsrag/api/rate_limit_backend.py, lines 196-213).

    Each command a request sends is one step, and steps of any number of requests from any number of replicas may
    interleave with the clock.  Time is in whole seconds.  A request may stall between any two of its commands, or
    stop for good. */
module RedisRateLimit {

  import opened Options

  datatype Decision = Decision(allowed: bool, remaining: int, retryAfter: int)

  /** A Redis key: its counter, and when it expires once EXPIRE has been sent. */
  datatype Counter = Counter(count: nat, expiry: Option<int>)

  /** Where one request is in `hit`. */
  datatype Phase =
    | Bucketed(bucket: int)                                  // line 198 done
    | Arming(bucket: int, count: nat)                        // INCR returned 1
    | Counted(bucket: int, count: nat)                       // INCR and EXPIRE done
    | Finished(bucket: int, at: int, decision: Decision)

  /** What one INCR did: who sent it, the clock, the bucket of its key, and the count it returned. */
  datatype Increment = Increment(request: nat, at: int, bucket: int, count: nat)

  datatype State = State(now: int, keys: map<int, Counter>, requests: map<nat, Phase>, increments: seq<Increment>)

  datatype Command =
    | Tick                       // one second passes
    | Begin(request: nat)        // compute the bucket from the clock
    | Incr(request: nat)
    | Expire(request: nat)
    | Decide(request: nat)       // compare with the limit; TTL when over it

  /** `max(1, int(window_seconds))`, with int() truncating toward zero. */
  function WindowOf(windowSeconds: real): (w: int)
    ensures windowSeconds < 1.0 ==> w == 1
    ensures w >= 1
    ensures windowSeconds >= 1.0 ==> w as real <= windowSeconds < w as real + 1.0
  {
    if windowSeconds < 1.0 then 1 else windowSeconds.Floor
  }

  function Live(keys: map<int, Counter>, now: int): map<int, Counter> {
    map b | b in keys && (keys[b].expiry.None? || now < keys[b].expiry.value) :: keys[b]
  }

  /** The reply to TTL: -2 for no key, -1 for a key that does not expire, else the seconds left. */
  function Ttl(s: State, bucket: int): int {
    if bucket !in s.keys then -2
    else if s.keys[bucket].expiry.None? then -1
    else s.keys[bucket].expiry.value - s.now
  }

  function Step(s: State, c: Command, limit: int, window: int): State
    requires window >= 1
  {
    match c
    case Tick => s.(now := s.now + 1, keys := Live(s.keys, s.now + 1))
    case Begin(r) =>
      if r in s.requests then s else s.(requests := s.requests[r := Bucketed(s.now / window)])
    case Incr(r) =>
      if r !in s.requests || !s.requests[r].Bucketed? then s
      else
        var b := s.requests[r].bucket;
        var old' := if b in s.keys then s.keys[b] else Counter(0, None);
        var count := old'.count + 1;
        s.(keys := s.keys[b := old'.(count := count)],
           requests := s.requests[r := if count == 1 then Arming(b, count) else Counted(b, count)],
           increments := s.increments + [Increment(r, s.now, b, count)])
    case Expire(r) =>
      if r !in s.requests || !s.requests[r].Arming? then s
      else
        var b := s.requests[r].bucket;
        s.(keys := if b in s.keys then s.keys[b := s.keys[b].(expiry := Some(s.now + window))] else s.keys,
           requests := s.requests[r := Counted(b, s.requests[r].count)])
    case Decide(r) =>
      if r !in s.requests || !s.requests[r].Counted? then s
      else
        var b, count := s.requests[r].bucket, s.requests[r].count;
        var ttl := Ttl(s, b);
        var d :=
          if count > limit then Decision(false, 0, if ttl > 0 then ttl else window)
          else Decision(true, if limit - count > 0 then limit - count else 0, 0);
        s.(requests := s.requests[r := Finished(b, s.now, d)])
  }

  function Run(start: int, commands: seq<Command>, limit: int, window: int): State
    requires window >= 1
    decreases |commands|
  {
    if commands == [] then State(start, map[], map[], [])
    else Step(Run(start, commands[..|commands| - 1], limit, window), commands[|commands| - 1], limit, window)
  }

  // ----- counting -----

  /** Requests of a bucket let through: an INCR is let through iff it returned at most the limit. */
  function Allowed(log: seq<Increment>, bucket: int, limit: int): nat {
    if log == [] then 0
    else
      var e := log[|log| - 1];
      Allowed(log[..|log| - 1], bucket, limit) + if e.bucket == bucket && e.count <= limit then 1 else 0
  }

  /** INCRs of a bucket in all. */
  function Hits(log: seq<Increment>, bucket: int): nat {
    if log == [] then 0
    else Hits(log[..|log| - 1], bucket) + if log[|log| - 1].bucket == bucket then 1 else 0
  }

  /** One number for each INCR that found no key for its bucket and created it: how many INCRs the counter it created
      received, itself included. */
  function Creations(log: seq<Increment>, bucket: int): seq<nat> {
    if log == [] then []
    else CreationsWith(Creations(log[..|log| - 1], bucket), log[|log| - 1], bucket)
  }

  function CreationsWith(sizes: seq<nat>, e: Increment, bucket: int): seq<nat> {
    if e.bucket != bucket then sizes
    else if e.count == 1 || sizes == [] then sizes + [1]
    else sizes[..|sizes| - 1] + [sizes[|sizes| - 1] + 1]
  }

  /** Every INCR of the bucket reached Redis inside the bucket computed for it. */
  predicate Prompt(log: seq<Increment>, bucket: int, window: int)
    requires window >= 1
  {
    forall i :: 0 <= i < |log| && log[i].bucket == bucket ==> log[i].at / window == bucket
  }

  function Min(a: int, b: int): int { if a < b then a else b }

  /** What counters that received so many INCRs let through in all: each its first `limit`. */
  function LetThrough(sizes: seq<nat>, limit: nat): nat {
    if sizes == [] then 0 else LetThrough(sizes[..|sizes| - 1], limit) + Min(limit, sizes[|sizes| - 1])
  }

  // ----- invariants -----

  ghost predicate KeysInv(s: State, window: int)
    requires window >= 1
  {
    && (forall b :: b in s.keys ==> s.keys[b].count >= 1)
    && (forall b :: b in s.keys && s.keys[b].expiry.Some? ==>
          s.keys[b].expiry.value > s.now && s.keys[b].expiry.value >= (b + 1) * window)
    && (forall b :: b in s.keys ==> b * window <= s.now)
  }

  ghost predicate RequestsInv(s: State, window: int)
    requires window >= 1
  {
    forall r :: r in s.requests ==>
      && s.requests[r].bucket * window <= s.now
      && (s.requests[r].Finished? && !s.requests[r].decision.allowed ==>
            var d := s.requests[r];
            d.decision.retryAfter >= 1 && d.at + d.decision.retryAfter >= (d.bucket + 1) * window && d.at <= s.now)
  }

  ghost predicate CountInv(s: State, limit: nat, bucket: int) {
    var sizes := Creations(s.increments, bucket);
    && (bucket in s.keys ==> sizes != [] && sizes[|sizes| - 1] == s.keys[bucket].count)
    && Allowed(s.increments, bucket, limit) == LetThrough(sizes, limit)
  }

  /** While every INCR of the bucket was prompt, its key was created at most once and counts them all. */
  ghost predicate PromptInv(s: State, limit: nat, bucket: int, window: int)
    requires window >= 1
  {
    Prompt(s.increments, bucket, window) ==>
      && (bucket in s.keys ==> s.keys[bucket].count == Hits(s.increments, bucket))
      && (bucket !in s.keys && Hits(s.increments, bucket) > 0 ==> s.now >= (bucket + 1) * window)
      && Allowed(s.increments, bucket, limit) == Min(limit, Hits(s.increments, bucket))
  }

  /** ... and each INCR returned its own place in the bucket. */
  ghost predicate OrdinalInv(log: seq<Increment>, bucket: int, window: int)
    requires window >= 1
  {
    Prompt(log, bucket, window) ==> forall i :: 0 <= i < |log| && log[i].bucket == bucket ==> OrdinalAt(log, i)
  }

  ghost predicate OrdinalAt(log: seq<Increment>, i: int)
    requires 0 <= i < |log|
  {
    log[i].count == Hits(log[..i + 1], log[i].bucket)
  }

  /** The decision of a request is the comparison of the count its own INCR returned with the limit. */
  ghost predicate LinkInv(s: State, limit: nat) {
    && (forall i :: 0 <= i < |s.increments| ==> Linked(s, s.increments[i], limit))
    && (forall i, j :: 0 <= i < j < |s.increments| ==> s.increments[i].request != s.increments[j].request)
    && (forall r :: r in s.requests && !s.requests[r].Bucketed? ==> Sent(s.increments, r))
  }

  ghost predicate Linked(s: State, e: Increment, limit: nat) {
    && e.request in s.requests && e.at <= s.now
    && match s.requests[e.request]
       case Bucketed(_) => false
       case Arming(b, count) => b == e.bucket && count == e.count
       case Counted(b, count) => b == e.bucket && count == e.count
       case Finished(b, at, d) =>
         && b == e.bucket && e.at <= at && d.allowed == (e.count <= limit)
         && d.remaining == (if d.allowed then limit - e.count else 0)
  }

  ghost predicate Sent(log: seq<Increment>, r: nat) {
    exists i :: 0 <= i < |log| && log[i].request == r
  }

  predicate ArmsAt(s: State, r: nat, bucket: int) {
    r in s.requests && s.requests[r].Arming? && s.requests[r].bucket == bucket
  }

  /** A key has no expiry exactly while the request that created it is between its INCR and its EXPIRE. */
  ghost predicate ArmingInv(s: State) {
    && (forall r, b :: ArmsAt(s, r, b) ==> b in s.keys && s.keys[b].expiry.None?)
    && (forall r, q, b :: ArmsAt(s, r, b) && ArmsAt(s, q, b) ==> r == q)
    && (forall b :: b in s.keys && s.keys[b].expiry.None? ==> exists r :: ArmsAt(s, r, b))
  }

  /** When a bucket's counter was last created, if ever. */
  function Born(log: seq<Increment>, bucket: int): Option<int> {
    if log == [] then None
    else
      var e := log[|log| - 1];
      if e.bucket == bucket && e.count == 1 then Some(e.at) else Born(log[..|log| - 1], bucket)
  }

  /** The expiry lies a window after some moment between the creation of the counter and now. */
  ghost predicate ExpiryInv(s: State, window: int) {
    forall b :: b in s.keys ==>
      && Born(s.increments, b).Some? && Born(s.increments, b).value <= s.now
      && (s.keys[b].expiry.Some? ==>
            Born(s.increments, b).value + window <= s.keys[b].expiry.value <= s.now + window)
  }

  lemma MulMonotone(a: int, b: int, window: int)
    requires window >= 1 && a <= b
    ensures a * window <= b * window
  {
  }

  lemma BucketBounds(t: int, window: int)
    requires window >= 1
    ensures (t / window) * window <= t < (t / window + 1) * window
  {
  }

  lemma KeysStep(s: State, c: Command, limit: int, window: int)
    requires window >= 1 && KeysInv(s, window) && RequestsInv(s, window)
    ensures KeysInv(Step(s, c, limit, window), window)
  {
    match c
    case Expire(r) =>
      if r in s.requests && s.requests[r].Arming? {
        var b := s.requests[r].bucket;
        assert b * window + window == (b + 1) * window;
      }
    case _ =>
  }

  lemma ArmingStep(s: State, c: Command, limit: int, window: int)
    requires window >= 1 && KeysInv(s, window) && ArmingInv(s)
    ensures ArmingInv(Step(s, c, limit, window))
  {
    var t := Step(s, c, limit, window);
    forall b | b in t.keys && t.keys[b].expiry.None? ensures exists r :: ArmsAt(t, r, b) {
      if b in s.keys && s.keys[b].expiry.None? {
        var r :| ArmsAt(s, r, b);
        assert ArmsAt(t, r, b);
      } else {
        assert c.Incr?;
        assert ArmsAt(t, c.request, b);
      }
    }
    forall r, b | ArmsAt(t, r, b) ensures b in t.keys && t.keys[b].expiry.None? {
      assert ArmsAt(s, r, b) || (c == Incr(r) && b !in s.keys);
      assert forall q :: c == Expire(q) && ArmsAt(s, q, b) ==> q == r;
    }
    forall r, q, b | ArmsAt(t, r, b) && ArmsAt(t, q, b) ensures r == q {
      assert ArmsAt(s, r, b) || (c == Incr(r) && b !in s.keys);
      assert ArmsAt(s, q, b) || (c == Incr(q) && b !in s.keys);
    }
  }

  lemma ExpiryStep(s: State, c: Command, limit: int, window: int)
    requires window >= 1 && KeysInv(s, window) && ArmingInv(s) && ExpiryInv(s, window)
    ensures ExpiryInv(Step(s, c, limit, window), window)
  {
    var t := Step(s, c, limit, window);
    forall b | b in t.keys
      ensures Born(t.increments, b).Some? && Born(t.increments, b).value <= t.now
      ensures t.keys[b].expiry.Some? ==>
                Born(t.increments, b).value + window <= t.keys[b].expiry.value <= t.now + window
    {
      if |t.increments| > |s.increments| {
        BornGrows(s.increments, t.increments[|s.increments|], b);
      }
      assert c.Expire? && ArmsAt(s, c.request, b) ==> b in s.keys;
    }
  }

  lemma {:induction false} BornGrows(log: seq<Increment>, e: Increment, bucket: int)
    ensures Born(log + [e], bucket) == if e.bucket == bucket && e.count == 1 then Some(e.at) else Born(log, bucket)
  {
    assert (log + [e])[..|log|] == log;
  }

  lemma RequestsStep(s: State, c: Command, limit: int, window: int)
    requires window >= 1 && KeysInv(s, window) && RequestsInv(s, window)
    ensures RequestsInv(Step(s, c, limit, window), window)
  {
    match c
    case Begin(r) => BucketBounds(s.now, window);
    case Decide(r) =>
      if r in s.requests && s.requests[r].Counted? {
        var b := s.requests[r].bucket;
        assert b * window + window == (b + 1) * window;
      }
    case _ =>
  }

  lemma {:induction false} LogGrows(log: seq<Increment>, e: Increment, bucket: int, limit: int)
    ensures (log + [e])[..|log|] == log && (log + [e])[|log|] == e
    ensures Allowed(log + [e], bucket, limit)
            == Allowed(log, bucket, limit) + if e.bucket == bucket && e.count <= limit then 1 else 0
    ensures Hits(log + [e], bucket) == Hits(log, bucket) + if e.bucket == bucket then 1 else 0
    ensures Creations(log + [e], bucket) == CreationsWith(Creations(log, bucket), e, bucket)
  {
    assert (log + [e])[..|log|] == log;
  }

  lemma {:induction false} LetThroughGrows(sizes: seq<nat>, e: Increment, bucket: int, limit: nat)
    requires e.count == 1 || (sizes != [] && e.count == sizes[|sizes| - 1] + 1)
    ensures LetThrough(CreationsWith(sizes, e, bucket), limit)
            == LetThrough(sizes, limit) + if e.bucket == bucket && e.count <= limit then 1 else 0
  {
    var more := CreationsWith(sizes, e, bucket);
    if e.bucket == bucket {
      assert more[..|more| - 1] == if e.count == 1 then sizes else sizes[..|sizes| - 1];
    }
  }

  lemma CountStep(s: State, c: Command, limit: nat, window: int, bucket: int)
    requires window >= 1 && KeysInv(s, window) && CountInv(s, limit, bucket)
    ensures CountInv(Step(s, c, limit, window), limit, bucket)
  {
    var s' := Step(s, c, limit, window);
    if |s'.increments| > |s.increments| {
      var e := s'.increments[|s.increments|];
      LogGrows(s.increments, e, bucket, limit);
      if e.bucket == bucket {
        LetThroughGrows(Creations(s.increments, bucket), e, bucket, limit);
      }
    }
  }

  lemma PromptTick(s: State, limit: nat, window: int, bucket: int)
    requires window >= 1 && KeysInv(s, window) && PromptInv(s, limit, bucket, window)
    ensures PromptInv(Step(s, Tick, limit, window), limit, bucket, window)
  {
    var t := Step(s, Tick, limit, window);
    assert bucket in s.keys && bucket !in t.keys ==> s.keys[bucket].expiry.Some? && s.keys[bucket].expiry.value <= t.now;
  }

  lemma PromptIncr(s: State, r: nat, limit: nat, window: int, bucket: int)
    requires window >= 1 && PromptInv(s, limit, bucket, window) && r in s.requests && s.requests[r].Bucketed?
    ensures PromptInv(Step(s, Incr(r), limit, window), limit, bucket, window)
  {
    var t := Step(s, Incr(r), limit, window);
    var e := t.increments[|s.increments|];
    assert t.increments == s.increments + [e];
    LogGrows(s.increments, e, bucket, limit);
    if Prompt(t.increments, bucket, window) {
      assert forall i :: 0 <= i < |s.increments| ==> t.increments[i] == s.increments[i];
      if e.bucket == bucket {
        PromptIsBefore(t.increments, |s.increments|, bucket, window);
      }
    }
  }

  lemma PromptIsBefore(log: seq<Increment>, i: nat, bucket: int, window: int)
    requires window >= 1 && Prompt(log, bucket, window) && i < |log| && log[i].bucket == bucket
    ensures log[i].at < (bucket + 1) * window
  {
    BucketBounds(log[i].at, window);
  }

  lemma PromptStep(s: State, c: Command, limit: nat, window: int, bucket: int)
    requires window >= 1 && KeysInv(s, window) && PromptInv(s, limit, bucket, window)
    ensures PromptInv(Step(s, c, limit, window), limit, bucket, window)
  {
    match c
    case Tick => PromptTick(s, limit, window, bucket);
    case Incr(r) =>
      if r in s.requests && s.requests[r].Bucketed? {
        PromptIncr(s, r, limit, window, bucket);
      }
    case _ =>
  }

  lemma {:induction false} OrdinalGrows(log: seq<Increment>, e: Increment, bucket: int)
    requires forall i :: 0 <= i < |log| && log[i].bucket == bucket ==> OrdinalAt(log, i)
    requires e.bucket == bucket ==> e.count == Hits(log, bucket) + 1
    ensures forall i :: 0 <= i < |log + [e]| && (log + [e])[i].bucket == bucket ==> OrdinalAt(log + [e], i)
  {
    var more := log + [e];
    forall i | 0 <= i < |more| && more[i].bucket == bucket ensures OrdinalAt(more, i) {
      if i < |log| {
        assert OrdinalAt(log, i);
        assert more[..i + 1] == log[..i + 1];
      } else {
        assert more[..i + 1] == more;
        LogGrows(log, e, bucket, 0);
      }
    }
  }

  lemma OrdinalStep(s: State, c: Command, limit: nat, window: int, bucket: int)
    requires window >= 1 && PromptInv(s, limit, bucket, window) && OrdinalInv(s.increments, bucket, window)
    requires PromptInv(Step(s, c, limit, window), limit, bucket, window)
    ensures OrdinalInv(Step(s, c, limit, window).increments, bucket, window)
  {
    var log, log' := s.increments, Step(s, c, limit, window).increments;
    if log' != log && Prompt(log', bucket, window) {
      var e := log'[|log|];
      assert log' == log + [e];
      assert forall i :: 0 <= i < |log| ==> log'[i] == log[i];
      LogGrows(log, e, bucket, limit);
      OrdinalGrows(log, e, bucket);
    }
  }

  lemma LinkStep(s: State, c: Command, limit: nat, window: int)
    requires window >= 1 && LinkInv(s, limit)
    ensures LinkInv(Step(s, c, limit, window), limit)
  {
    var s' := Step(s, c, limit, window);
    assert forall i :: 0 <= i < |s.increments| ==> s'.increments[i] == s.increments[i];
    forall i | 0 <= i < |s'.increments| ensures Linked(s', s'.increments[i], limit) {
      if i < |s.increments| {
        assert Linked(s, s.increments[i], limit);
      }
    }
    assert forall i :: 0 <= i < |s.increments| ==> !s.requests[s.increments[i].request].Bucketed? by {
      assert forall i :: 0 <= i < |s.increments| ==> Linked(s, s.increments[i], limit);
    }
    forall r | r in s'.requests && !s'.requests[r].Bucketed? ensures Sent(s'.increments, r) {
      if Sent(s.increments, r) {
        var i :| 0 <= i < |s.increments| && s.increments[i].request == r;
        assert s'.increments[i].request == r;
      } else {
        assert s'.increments[|s.increments|].request == r;
      }
    }
  }

  lemma {:induction false} RunInv(start: int, commands: seq<Command>, limit: nat, window: int, bucket: int)
    requires window >= 1
    ensures var s := Run(start, commands, limit, window);
            && KeysInv(s, window) && RequestsInv(s, window) && ArmingInv(s) && ExpiryInv(s, window)
            && CountInv(s, limit, bucket) && PromptInv(s, limit, bucket, window)
            && OrdinalInv(s.increments, bucket, window) && LinkInv(s, limit)
    decreases |commands|
  {
    if commands != [] {
      var front, c := commands[..|commands| - 1], commands[|commands| - 1];
      RunInv(start, front, limit, window, bucket);
      var s := Run(start, front, limit, window);
      KeysStep(s, c, limit, window);
      ArmingStep(s, c, limit, window);
      ExpiryStep(s, c, limit, window);
      RequestsStep(s, c, limit, window);
      CountStep(s, c, limit, window, bucket);
      PromptStep(s, c, limit, window, bucket);
      OrdinalStep(s, c, limit, window, bucket);
      LinkStep(s, c, limit, window);
    }
  }

  // ----- main results -----

  /** The requests of a bucket that `hit` has let through. */
  function Admitted(s: State, bucket: int): set<nat> {
    set r | r in s.requests && s.requests[r].Finished? && s.requests[r].bucket == bucket && s.requests[r].decision.allowed
  }

  /** The requests let through whose INCR fell in [from, to). */
  function AdmittedBetween(s: State, from: int, to: int): set<nat> {
    set i | 0 <= i < |s.increments| && from <= s.increments[i].at < to && Passed(s, s.increments[i].request)
      :: s.increments[i].request
  }

  predicate Passed(s: State, r: nat) {
    r in s.requests && s.requests[r].Finished? && s.requests[r].decision.allowed
  }

  ghost predicate Logged(log: seq<Increment>, r: nat, bucket: int, limit: int) {
    exists i :: 0 <= i < |log| && log[i].request == r && log[i].bucket == bucket && log[i].count <= limit
  }

  lemma {:induction false} CountRequests(log: seq<Increment>, rs: set<nat>, bucket: int, limit: int)
    requires forall r :: r in rs ==> Logged(log, r, bucket, limit)
    ensures |rs| <= Allowed(log, bucket, limit)
    decreases |log|
  {
    if log == [] {
      assert rs == {};
    } else {
      var front, e := log[..|log| - 1], log[|log| - 1];
      var rest := if e.bucket == bucket && e.count <= limit then rs - {e.request} else rs;
      forall r | r in rest ensures Logged(front, r, bucket, limit) {
        var i :| 0 <= i < |log| && log[i].request == r && log[i].bucket == bucket && log[i].count <= limit;
        assert front[i] == log[i];
      }
      CountRequests(front, rest, bucket, limit);
      assert rest == rs || rs == rest + {e.request};
    }
  }

  lemma {:induction false} AdmittedAtMostAllowed(s: State, bucket: int, limit: nat)
    requires LinkInv(s, limit)
    ensures |Admitted(s, bucket)| <= Allowed(s.increments, bucket, limit)
  {
    forall r | r in Admitted(s, bucket) ensures Logged(s.increments, r, bucket, limit) {
      assert Sent(s.increments, r);
      var i :| 0 <= i < |s.increments| && s.increments[i].request == r;
      assert Linked(s, s.increments[i], limit);
    }
    CountRequests(s.increments, Admitted(s, bucket), bucket, limit);
  }

  lemma {:induction false} CountAllowed(log: seq<Increment>, rs: set<nat>, bucket: int, limit: int)
    requires forall i, j :: 0 <= i < j < |log| ==> log[i].request != log[j].request
    requires forall i :: 0 <= i < |log| && log[i].bucket == bucket && log[i].count <= limit ==> log[i].request in rs
    ensures Allowed(log, bucket, limit) <= |rs|
    decreases |log|
  {
    if log != [] {
      var front, e := log[..|log| - 1], log[|log| - 1];
      if e.bucket == bucket && e.count <= limit {
        assert e.request in rs;
        CountAllowed(front, rs - {e.request}, bucket, limit);
      } else {
        CountAllowed(front, rs, bucket, limit);
      }
    }
  }

  /** Every request that has incremented the bucket's counter has its answer. */
  ghost predicate Settled(s: State, bucket: int) {
    forall r :: r in s.requests && s.requests[r].bucket == bucket ==> s.requests[r].Bucketed? || s.requests[r].Finished?
  }

  lemma {:induction false} SettledAdmitsAllowed(s: State, bucket: int, limit: nat)
    requires LinkInv(s, limit) && Settled(s, bucket)
    ensures Allowed(s.increments, bucket, limit) <= |Admitted(s, bucket)|
  {
    var log := s.increments;
    forall i | 0 <= i < |log| && log[i].bucket == bucket && log[i].count <= limit
      ensures log[i].request in Admitted(s, bucket)
    {
      assert Linked(s, log[i], limit);
    }
    CountAllowed(log, Admitted(s, bucket), bucket, limit);
  }

  /** In any run at all, a bucket lets through no more than the limit or the INCRs received, whichever is less, of each
      counter created for it, and no fewer once those who sent them have their answers. */
  lemma {:induction false} AdmittedPerCreation(start: int, commands: seq<Command>, limit: nat, window: int, bucket: int)
    requires window >= 1
    ensures var s := Run(start, commands, limit, window);
            var most := LetThrough(Creations(s.increments, bucket), limit);
            |Admitted(s, bucket)| <= most && (Settled(s, bucket) ==> |Admitted(s, bucket)| == most)
  {
    RunInv(start, commands, limit, window, bucket);
    var s := Run(start, commands, limit, window);
    AdmittedAtMostAllowed(s, bucket, limit);
    if Settled(s, bucket) {
      SettledAdmitsAllowed(s, bucket, limit);
    }
  }

  /** That is at most the limit for each time the counter is created. */
  lemma {:induction false} LetThroughWithin(sizes: seq<nat>, limit: nat)
    ensures LetThrough(sizes, limit) <= |sizes| * limit
  {
    if sizes != [] {
      LetThroughWithin(sizes[..|sizes| - 1], limit);
      assert |sizes| * limit == (|sizes| - 1) * limit + limit;
    }
  }

  /** Where every INCR of a bucket is prompt, at most `limit` of its requests are let through. */
  lemma {:induction false} AdmittedPerBucket(start: int, commands: seq<Command>, limit: nat, window: int, bucket: int)
    requires window >= 1 && Prompt(Run(start, commands, limit, window).increments, bucket, window)
    ensures |Admitted(Run(start, commands, limit, window), bucket)| <= limit
  {
    RunInv(start, commands, limit, window, bucket);
    AdmittedAtMostAllowed(Run(start, commands, limit, window), bucket, limit);
  }

  /** ... and they are the first `limit` to increment the counter: the k-th is told that `limit - k` remain. */
  lemma {:induction false} FirstComeFirstServed(start: int, commands: seq<Command>, limit: nat, window: int, i: nat)
    requires window >= 1
    requires var s := Run(start, commands, limit, window);
             && i < |s.increments| && Prompt(s.increments, s.increments[i].bucket, window)
             && s.increments[i].request in s.requests && s.requests[s.increments[i].request].Finished?
    ensures var s := Run(start, commands, limit, window);
            var d, k := s.requests[s.increments[i].request].decision, Hits(s.increments[..i + 1], s.increments[i].bucket);
            && (d.allowed <==> k <= limit)
            && d.remaining == (if k <= limit then limit - k else 0)
  {
    var s := Run(start, commands, limit, window);
    RunInv(start, commands, limit, window, s.increments[i].bucket);
    assert Linked(s, s.increments[i], limit);
  }

  lemma NextBucketAtMost(from: int, at: int, window: int)
    requires window >= 1 && from <= at < from + window
    ensures at / window == from / window || at / window == from / window + 1
  {
    var a, b := from / window, at / window;
    BucketBounds(from, window);
    BucketBounds(at, window);
    if b < a {
      MulMonotone(b + 1, a, window);
    } else if b > a + 1 {
      MulMonotone(a + 2, b, window);
    }
  }

  lemma {:induction false} AdmittedInOneOfTwo(start: int, commands: seq<Command>, limit: nat, window: int, from: int, r: nat)
    requires window >= 1
    requires forall b :: Prompt(Run(start, commands, limit, window).increments, b, window)
    requires r in AdmittedBetween(Run(start, commands, limit, window), from, from + window)
    ensures var s := Run(start, commands, limit, window);
            r in Admitted(s, from / window) || r in Admitted(s, from / window + 1)
  {
    var s := Run(start, commands, limit, window);
    RunInv(start, commands, limit, window, 0);
    var i :| 0 <= i < |s.increments| && from <= s.increments[i].at < from + window && s.increments[i].request == r;
    assert Linked(s, s.increments[i], limit);
    assert Prompt(s.increments, s.increments[i].bucket, window);
    NextBucketAtMost(from, s.increments[i].at, window);
  }

  /** No half-open interval of one window length, aligned or not, lets through more than twice the limit. */
  lemma {:induction false} AtMostTwiceTheLimit(start: int, commands: seq<Command>, limit: nat, window: int, from: int)
    requires window >= 1
    requires forall b :: Prompt(Run(start, commands, limit, window).increments, b, window)
    ensures |AdmittedBetween(Run(start, commands, limit, window), from, from + window)| <= 2 * limit
  {
    var s := Run(start, commands, limit, window);
    var b := from / window;
    var x, y, z := AdmittedBetween(s, from, from + window), Admitted(s, b), Admitted(s, b + 1);
    forall r | r in x ensures r in y + z {
      AdmittedInOneOfTwo(start, commands, limit, window, from, r);
    }
    SubsetSize(x, y, z);
    AdmittedPerBucket(start, commands, limit, window, b);
    AdmittedPerBucket(start, commands, limit, window, b + 1);
  }

  lemma {:induction false} SubsetSize(x: set<nat>, y: set<nat>, z: set<nat>)
    requires x <= y + z
    ensures |x| <= |y| + |z|
    decreases |x|
  {
    if x != {} {
      var r :| r in x;
      SubsetSize(x - {r}, y - {r}, z - {r});
    }
  }

  /** A counter never expires inside its own bucket. */
  lemma {:induction false} NoExpiryInBucket(start: int, commands: seq<Command>, limit: nat, window: int, bucket: int)
    requires window >= 1
    requires var s := Run(start, commands, limit, window);
             bucket in s.keys && (s.now + 1) / window == bucket
    ensures bucket in Run(start, commands + [Tick], limit, window).keys
  {
    RunInv(start, commands, limit, window, bucket);
    RunSnoc(start, commands, Tick, limit, window);
    TickKeeps(Run(start, commands, limit, window), window, bucket);
  }

  lemma TickKeeps(s: State, window: int, bucket: int)
    requires window >= 1 && KeysInv(s, window) && bucket in s.keys && (s.now + 1) / window == bucket
    ensures bucket in Live(s.keys, s.now + 1)
  {
    BucketBounds(s.now + 1, window);
  }

  /** In every run a key lives until its expiry, which lies a window after its creation, or later by as much as its EXPIRE
      was; and it has none exactly while the request that created it has still to send that. */
  lemma {:induction false} KeyLives(start: int, commands: seq<Command>, limit: nat, window: int, bucket: int)
    requires window >= 1 && bucket in Run(start, commands, limit, window).keys
    ensures var s := Run(start, commands, limit, window);
            var born, expiry := Born(s.increments, bucket), s.keys[bucket].expiry;
            && born.Some? && born.value <= s.now
            && (expiry.None? <==> exists r :: ArmsAt(s, r, bucket))
            && (expiry.Some? ==> s.now < expiry.value && born.value + window <= expiry.value <= s.now + window)
  {
    RunInv(start, commands, limit, window, bucket);
  }

  /** In every run a request is answered by comparing the count its INCR returned with the limit; and one over it is told
      to wait exactly until the counter expires, or a whole window if it does not, never less than a second or more than
      a window. */
  lemma {:induction false} ToldExpiry(start: int, commands: seq<Command>, limit: nat, window: int, r: nat)
    requires window >= 1
    requires var s := Run(start, commands, limit, window); r in s.requests && s.requests[r].Counted?
    ensures var s := Run(start, commands, limit, window);
            var t := Run(start, commands + [Decide(r)], limit, window);
            && t.now == s.now && t.keys == s.keys && t.increments == s.increments
            && r in t.requests && t.requests[r].Finished? && t.requests[r].at == s.now
            && var b, count, d := s.requests[r].bucket, s.requests[r].count, t.requests[r].decision;
               && (d.allowed <==> count <= limit)
               && (d.allowed ==> d.remaining == limit - count && d.retryAfter == 0)
               && (!d.allowed ==> d.remaining == 0 && 1 <= d.retryAfter <= window)
               && (!d.allowed ==> if b in s.keys && s.keys[b].expiry.Some?
                                  then s.now + d.retryAfter == s.keys[b].expiry.value else d.retryAfter == window)
  {
    RunInv(start, commands, limit, window, 0);
    RunSnoc(start, commands, Decide(r), limit, window);
  }

  function Ticks(n: nat): seq<Command> { if n == 0 then [] else Ticks(n - 1) + [Tick] }

  /** Left alone a key is there exactly until its expiry: a request refused and told to wait finds it gone then, and not
      before. */
  lemma TickLeaves(s: State, limit: int, window: int, bucket: int)
    requires window >= 1
    ensures var t := Step(s, Tick, limit, window);
            && t.now == s.now + 1
            && (bucket in t.keys <==> bucket in s.keys && (s.keys[bucket].expiry.None? || t.now < s.keys[bucket].expiry.value))
            && (bucket in t.keys ==> t.keys[bucket] == s.keys[bucket])
  {
  }

  lemma {:induction false} GoneAtExpiry(start: int, commands: seq<Command>, limit: nat, window: int, bucket: int, n: nat)
    requires window >= 1
    requires var s := Run(start, commands, limit, window); bucket in s.keys && s.keys[bucket].expiry.Some?
    ensures var s, t := Run(start, commands, limit, window), Run(start, commands + Ticks(n), limit, window);
            && t.now == s.now + n
            && (bucket in t.keys <==> s.now + n < s.keys[bucket].expiry.value)
            && (bucket in t.keys ==> t.keys[bucket] == s.keys[bucket])
  {
    if n == 0 {
      KeyLives(start, commands, limit, window, bucket);
      assert commands + [] == commands;
    } else {
      GoneAtExpiry(start, commands, limit, window, bucket, n - 1);
      assert commands + Ticks(n) == commands + Ticks(n - 1) + [Tick];
      RunSnoc(start, commands + Ticks(n - 1), Tick, limit, window);
      TickLeaves(Run(start, commands + Ticks(n - 1), limit, window), limit, window, bucket);
    }
  }

  /** A refused request that waits the seconds it was told to wait finds a later bucket. */
  lemma {:induction false} RetryLandsLater(start: int, commands: seq<Command>, limit: nat, window: int, request: nat,
                                           later: int)
    requires window >= 1
    requires var s := Run(start, commands, limit, window);
             && request in s.requests && s.requests[request].Finished? && !s.requests[request].decision.allowed
             && later >= s.requests[request].at + s.requests[request].decision.retryAfter
    ensures later / window > Run(start, commands, limit, window).requests[request].bucket
  {
    RunInv(start, commands, limit, window, 0);
    var b := Run(start, commands, limit, window).requests[request].bucket;
    BucketBounds(later, window);
    if later / window <= b {
      MulMonotone(later / window + 1, b + 1, window);
    }
  }

  lemma {:induction false} RunSnoc(start: int, commands: seq<Command>, c: Command, limit: int, window: int)
    requires window >= 1
    ensures Run(start, commands + [c], limit, window) == Step(Run(start, commands, limit, window), c, limit, window)
  {
    assert (commands + [c])[..|commands|] == commands;
  }

  const DONE := Finished(0, 0, Decision(true, 0, 0))

  lemma OneAdmittedOneStalled() returns (commands: seq<Command>)
    ensures Run(0, commands, 1, 1)
            == State(0, map[0 := Counter(1, Some(1))], map[1 := DONE, 2 := Bucketed(0)], [Increment(1, 0, 0, 1)])
  {
    var one := Increment(1, 0, 0, 1);
    RunSnoc(0, [], Begin(1), 1, 1);
    commands := [] + [Begin(1)];
    RunSnoc(0, commands, Begin(2), 1, 1);
    commands := commands + [Begin(2)];
    assert Run(0, commands, 1, 1) == State(0, map[], map[1 := Bucketed(0), 2 := Bucketed(0)], []);
    RunSnoc(0, commands, Incr(1), 1, 1);
    commands := commands + [Incr(1)];
    assert Run(0, commands, 1, 1) == State(0, map[0 := Counter(1, None)], map[1 := Arming(0, 1), 2 := Bucketed(0)], [one]);
    RunSnoc(0, commands, Expire(1), 1, 1);
    commands := commands + [Expire(1)];
    assert Run(0, commands, 1, 1) == State(0, map[0 := Counter(1, Some(1))], map[1 := Counted(0, 1), 2 := Bucketed(0)], [one]);
    RunSnoc(0, commands, Decide(1), 1, 1);
    commands := commands + [Decide(1)];
  }

  /** Promptness cannot be dropped: an INCR that lands after its bucket's counter expired is let through afresh. */
  lemma LateIncrementExceedsLimit() returns (commands: seq<Command>)
    ensures Admitted(Run(0, commands, 1, 1), 0) == {1, 2}
  {
    commands := OneAdmittedOneStalled();
    var one, two := Increment(1, 0, 0, 1), Increment(2, 1, 0, 1);
    RunSnoc(0, commands, Tick, 1, 1);
    commands := commands + [Tick];
    assert Run(0, commands, 1, 1) == State(1, map[], map[1 := DONE, 2 := Bucketed(0)], [one]);
    RunSnoc(0, commands, Incr(2), 1, 1);
    commands := commands + [Incr(2)];
    assert Run(0, commands, 1, 1) == State(1, map[0 := Counter(1, None)], map[1 := DONE, 2 := Arming(0, 1)], [one, two]);
    RunSnoc(0, commands, Expire(2), 1, 1);
    commands := commands + [Expire(2)];
    RunSnoc(0, commands, Decide(2), 1, 1);
    commands := commands + [Decide(2)];
    assert Run(0, commands, 1, 1).requests == map[1 := DONE, 2 := Finished(0, 1, Decision(true, 0, 0))];
  }

  // ----- the backend -----

  /** The server's counters for one limiter key, by bucket; each method is one command. */
  class Redis {
    var now: int
    var keys: map<int, Counter>

    constructor (now: int)
      ensures this.now == now && keys == map[]
    {
      this.now, keys := now, map[];
    }

    method Incr(bucket: int) returns (count: nat)
      modifies this`keys
      ensures var was := if bucket in old(keys) then old(keys)[bucket] else Counter(0, None);
              count == was.count + 1 && keys == old(keys)[bucket := was.(count := count)]
    {
      var c := if bucket in keys then keys[bucket] else Counter(0, None);
      count := c.count + 1;
      keys := keys[bucket := c.(count := count)];
    }

    method Expire(bucket: int, seconds: int)
      modifies this`keys
      ensures keys == if bucket in old(keys) then old(keys)[bucket := old(keys)[bucket].(expiry := Some(now + seconds))]
                      else old(keys)
    {
      if bucket in keys {
        keys := keys[bucket := keys[bucket].(expiry := Some(now + seconds))];
      }
    }

    method TtlOf(bucket: int) returns (seconds: int)
      ensures seconds == Ttl(State(now, keys, map[], []), bucket)
    {
      if bucket !in keys {
        return -2;
      }
      if keys[bucket].expiry.None? {
        return -1;
      }
      return keys[bucket].expiry.value - now;
    }
  }

  /** All commands of one request with nothing in between. */
  function Uninterrupted(now: int, keys: map<int, Counter>, limit: int, window: int): State
    requires window >= 1
  {
    var s := Step(State(now, keys, map[], []), Begin(0), limit, window);
    Step(Step(Step(s, Incr(0), limit, window), Expire(0), limit, window), Decide(0), limit, window)
  }

  function Found(keys: map<int, Counter>, bucket: int): Counter {
    if bucket in keys then keys[bucket] else Counter(0, None)
  }

  /** What one request makes of its key ... */
  function CountedIn(was: Counter, now: int, window: int): Counter {
    Counter(was.count + 1, if was.count == 0 then Some(now + window) else was.expiry)
  }

  /** ... and what it is told. */
  predicate Answers(d: Decision, c: Counter, now: int, limit: int, window: int) {
    && (d.allowed <==> c.count <= limit)
    && (d.allowed ==> d.remaining == limit - c.count && d.retryAfter == 0)
    && (!d.allowed ==> d.remaining == 0)
    && (!d.allowed ==> if c.expiry.Some? && c.expiry.value > now
                       then now + d.retryAfter == c.expiry.value else d.retryAfter == window)
  }

  lemma UninterruptedIs(now: int, keys: map<int, Counter>, limit: int, window: int)
    requires window >= 1
    ensures var t := Uninterrupted(now, keys, limit, window);
            var c := CountedIn(Found(keys, now / window), now, window);
            && t.keys == keys[now / window := c]
            && 0 in t.requests && t.requests[0].Finished? && Answers(t.requests[0].decision, c, now, limit, window)
  {
  }

  class RedisRateLimitBackend {
    const client: Redis

    constructor (client: Redis)
      ensures this.client == client
    {
      this.client := client;
    }

    /** A hit that nothing interrupts is the steps of the protocol, one after the other: it counts itself, arms the
        counter if it created it, and is let through if the count is within the limit. */
    method Hit(limit: int, windowSeconds: real) returns (d: Decision)
      modifies client`keys
      ensures var t := Uninterrupted(client.now, old(client.keys), limit, WindowOf(windowSeconds));
              && client.keys == t.keys
              && 0 in t.requests && t.requests[0].Finished? && t.requests[0].decision == d
      ensures var window := WindowOf(windowSeconds);
              var c := CountedIn(Found(old(client.keys), client.now / window), client.now, window);
              client.keys == old(client.keys)[client.now / window := c] && Answers(d, c, client.now, limit, window)
    {
      var window := WindowOf(windowSeconds);
      UninterruptedIs(client.now, client.keys, limit, window);
      var bucket := client.now / window;
      var count := client.Incr(bucket);
      if count == 1 {
        client.Expire(bucket, window);
      }
      if count > limit {
        var ttl := client.TtlOf(bucket);
        var retryAfter := if ttl > 0 then ttl else window;
        return Decision(false, 0, retryAfter);
      }
      var remaining := if limit - count > 0 then limit - count else 0;
      return Decision(true, remaining, 0);
    }
  }
}
