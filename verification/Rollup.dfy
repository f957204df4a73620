/** Sums of usage over rows, and the roll-up query of opsrag/usage_persistence.py, lines 226-234. */
module Rollup {

  /** Token counts, calls and latency; they add up column by column. */
  datatype Usage = Usage(input: int, output: int, calls: int, latency: real) {
    function Plus(u: Usage): Usage { Usage(input + u.input, output + u.output, calls + u.calls, latency + u.latency) }
  }

  const NOTHING := Usage(0, 0, 0, 0.0)

  datatype Column = Input | Output | Calls | Latency

  function Field(u: Usage, c: Column): real {
    match c
    case Input => u.input as real
    case Output => u.output as real
    case Calls => u.calls as real
    case Latency => u.latency
  }

  lemma FieldPlus(u: Usage, v: Usage, c: Column)
    ensures Field(u.Plus(v), c) == Field(u, c) + Field(v, c)
  {
  }

  lemma FieldsDecide(u: Usage, v: Usage)
    requires forall c :: Field(u, c) == Field(v, c)
    ensures u == v
  {
    assert Field(u, Input) == Field(v, Input) && Field(u, Output) == Field(v, Output);
    assert Field(u, Calls) == Field(v, Calls) && Field(u, Latency) == Field(v, Latency);
  }

  datatype Row<K> = Row(key: K, usage: Usage)

  /** How many rows have a key in question ... */
  function Count<K>(rows: seq<Row<K>>, which: K -> bool): nat {
    if rows == [] then 0 else Count(rows[..|rows| - 1], which) + if which(rows[|rows| - 1].key) then 1 else 0
  }

  /** ... and what they amount to. */
  function Sum<K>(rows: seq<Row<K>>, which: K -> bool, amount: Row<K> -> real): real {
    if rows == [] then 0.0
    else
      var r := rows[|rows| - 1];
      Sum(rows[..|rows| - 1], which, amount) + if which(r.key) then amount(r) else 0.0
  }

  /** The amount in a column. */
  function Of<K>(c: Column): Row<K> -> real { (r: Row<K>) => Field(r.usage, c) }

  lemma {:induction false} SumsSnoc<K>(rows: seq<Row<K>>, r: Row<K>, which: K -> bool, amount: Row<K> -> real)
    ensures Count(rows + [r], which) == Count(rows, which) + (if which(r.key) then 1 else 0)
    ensures Sum(rows + [r], which, amount) == Sum(rows, which, amount) + if which(r.key) then amount(r) else 0.0
  {
    assert (rows + [r])[..|rows|] == rows;
  }

  // ----- the order of the rows -----

  lemma {:induction false} TakeOut<K>(xs: seq<Row<K>>, i: nat, which: K -> bool, amount: Row<K> -> real)
    requires i < |xs|
    ensures var rest := xs[..i] + xs[i + 1..];
            && Count(xs, which) == Count(rest, which) + (if which(xs[i].key) then 1 else 0)
            && Sum(xs, which, amount) == Sum(rest, which, amount) + if which(xs[i].key) then amount(xs[i]) else 0.0
    decreases |xs|
  {
    var last := |xs| - 1;
    if i == last {
      assert xs[..i] + xs[i + 1..] == xs[..last];
    } else {
      var front := xs[..last];
      TakeOut(front, i, which, amount);
      var inner := front[..i] + front[i + 1..];
      assert xs[..i] + xs[i + 1..] == inner + [xs[last]];
      SumsSnoc(inner, xs[last], which, amount);
    }
  }

  lemma LessOne<T>(xs: seq<T>, i: nat)
    requires i < |xs|
    ensures multiset(xs[..i] + xs[i + 1..]) == multiset(xs) - multiset{xs[i]}
  {
    assert xs == xs[..i] + [xs[i]] + xs[i + 1..];
    assert multiset(xs) == multiset(xs[..i]) + multiset{xs[i]} + multiset(xs[i + 1..]);
  }

  lemma LessLast<T>(xs: seq<T>)
    requires xs != []
    ensures multiset(xs[..|xs| - 1]) == multiset(xs) - multiset{xs[|xs| - 1]}
  {
    assert xs == xs[..|xs| - 1] + [xs[|xs| - 1]];
  }

  lemma SameElsewhere<T>(xs: seq<T>, ys: seq<T>) returns (i: nat)
    requires multiset(xs) == multiset(ys) && xs != []
    ensures i < |ys| && ys[i] == xs[|xs| - 1]
    ensures multiset(xs[..|xs| - 1]) == multiset(ys[..i] + ys[i + 1..])
  {
    assert xs[|xs| - 1] in multiset(xs);
    i :| 0 <= i < |ys| && ys[i] == xs[|xs| - 1];
    LessOne(ys, i);
    LessLast(xs);
  }

  lemma {:induction false} SumPermuted<K>(xs: seq<Row<K>>, ys: seq<Row<K>>, which: K -> bool, amount: Row<K> -> real)
    requires multiset(xs) == multiset(ys)
    ensures Count(xs, which) == Count(ys, which) && Sum(xs, which, amount) == Sum(ys, which, amount)
    decreases |xs|
  {
    if xs == [] {
      assert |multiset(ys)| == |ys|;
    } else {
      var i := SameElsewhere(xs, ys);
      TakeOut(ys, i, which, amount);
      SumPermuted(xs[..|xs| - 1], ys[..i] + ys[i + 1..], which, amount);
    }
  }

  // ----- GROUP BY -----

  function Is<K(==)>(key: K): K -> bool { k => k == key }

  /** `groups` is what the roll-up query returns for the events, in some order: one row for each key there is, with the
      sums.  An event counts one call, so the sum of calls is COUNT(*). */
  ghost predicate GroupBy<K(!new)>(groups: seq<Row<K>>, events: seq<Row<K>>) {
    && (forall k: K :: GroupedOnce(groups, events, k))
    && (forall i, c :: 0 <= i < |groups| ==> Field(groups[i].usage, c) == Sum(events, Is(groups[i].key), Of(c)))
  }

  predicate GroupedOnce<K(==)>(groups: seq<Row<K>>, events: seq<Row<K>>, k: K) {
    Count(groups, Is(k)) == if Count(events, Is(k)) > 0 then 1 else 0
  }

  /** The events without a group. */
  function Without<K(==)>(rows: seq<Row<K>>, key: K): seq<Row<K>> {
    if rows == [] then []
    else
      var front, r := Without(rows[..|rows| - 1], key), rows[|rows| - 1];
      if r.key == key then front else front + [r]
  }

  lemma {:induction false} TakeGroup<K>(events: seq<Row<K>>, g: K, which: K -> bool, amount: Row<K> -> real)
    ensures Count(events, which) == Count(Without(events, g), which) + (if which(g) then Count(events, Is(g)) else 0)
    ensures Sum(events, which, amount)
         == Sum(Without(events, g), which, amount) + if which(g) then Sum(events, Is(g), amount) else 0.0
  {
    if events != [] {
      var front, r := events[..|events| - 1], events[|events| - 1];
      TakeGroup(front, g, which, amount);
      SumsSnoc(Without(front, g), r, which, amount);
    }
  }

  lemma {:induction false} OtherGroups<K>(events: seq<Row<K>>, g: K, h: K, amount: Row<K> -> real)
    ensures Count(Without(events, g), Is(h)) == if g == h then 0 else Count(events, Is(h))
    ensures g != h ==> Sum(Without(events, g), Is(h), amount) == Sum(events, Is(h), amount)
  {
    if events != [] {
      var front, r := events[..|events| - 1], events[|events| - 1];
      OtherGroups(front, g, h, amount);
      SumsSnoc(Without(front, g), r, Is(h), amount);
    }
  }

  lemma {:induction false} Member<K>(rows: seq<Row<K>>, i: nat)
    requires i < |rows|
    ensures Count(rows, Is(rows[i].key)) > 0
  {
    if i < |rows| - 1 {
      Member(rows[..|rows| - 1], i);
    }
  }

  lemma {:induction false} GroupByWithout<K(!new)>(groups: seq<Row<K>>, events: seq<Row<K>>)
    requires GroupBy(groups, events) && groups != []
    ensures GroupBy(groups[..|groups| - 1], Without(events, groups[|groups| - 1].key))
  {
    var front, g := groups[..|groups| - 1], groups[|groups| - 1].key;
    forall h: K ensures GroupedOnce(front, Without(events, g), h) {
      OtherGroups(events, g, h, Of(Calls));
      assert GroupedOnce(groups, events, h);
    }
    forall i, c | 0 <= i < |front|
      ensures Field(front[i].usage, c) == Sum(Without(events, g), Is(front[i].key), Of(c))
    {
      OtherGroups(events, g, front[i].key, Of(c));
      Member(front, i);
      assert GroupedOnce(groups, events, g);
      assert groups[i] == front[i];
    }
  }

  /** The groups add up to the events, for every selection of keys and in every column. */
  lemma {:induction false} GroupsAddUp<K(!new)>(groups: seq<Row<K>>, events: seq<Row<K>>, which: K -> bool, c: Column)
    requires GroupBy(groups, events)
    ensures Count(groups, which) > 0 <==> Count(events, which) > 0
    ensures Sum(groups, which, Of(c)) == Sum(events, which, Of(c))
    decreases |groups|
  {
    if groups == [] {
      NoGroupsNoEvents(events);
    } else {
      var front, g := groups[..|groups| - 1], groups[|groups| - 1];
      GroupByWithout(groups, events);
      GroupsAddUp(front, Without(events, g.key), which, c);
      TakeGroup(events, g.key, which, Of(c));
      Member(groups, |front|);
      assert GroupedOnce(groups, events, g.key);
      assert Field(groups[|front|].usage, c) == Sum(events, Is(g.key), Of(c));
    }
  }

  lemma NoGroupsNoEvents<K(!new)>(events: seq<Row<K>>)
    requires GroupBy([], events)
    ensures events == []
  {
    assert events != [] ==> !GroupedOnce([], events, events[0].key) by {
      if events != [] {
        Member(events, 0);
      }
    }
  }
}
