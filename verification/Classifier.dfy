/** The semantic router and the hybrid classification of queries (opsrag/agent/classifier.py, lines 254-278, 489-569 and
    623-706).

    Numbers are reals; a vector carries its square root.  What the patterns match and what the model answers are
    parameters. */
module Classifier {

  import opened Options

  datatype Category = Forensic | Live | Procedural | Mixed | InfraGraph | Casual | Unknown

  // ----- cosine -----

  /** sum(x * y for x, y in zip(a, b)): the shorter vector decides. */
  function Dot(a: seq<real>, b: seq<real>): real {
    if a == [] || b == [] then 0.0 else a[0] * b[0] + Dot(a[1..], b[1..])
  }

  datatype Embedding = Embedding(xs: seq<real>, norm: real)

  /** `norm` is math.sqrt of the sum of the squares. */
  type Vector = v: Embedding | v.norm >= 0.0 && v.norm * v.norm == Dot(v.xs, v.xs) witness Embedding([], 0.0)

  function Cosine(a: Vector, b: Vector): real {
    if a.xs == [] || b.xs == [] then 0.0
    else if a.norm == 0.0 || b.norm == 0.0 then 0.0
    else Dot(a.xs, b.xs) / Product(a.norm, b.norm)
  }

  function Product(x: real, y: real): (p: real)
    ensures x > 0.0 && y > 0.0 ==> p > 0.0
  {
    x * y
  }

  lemma {:induction false} SquaresNonNegative(a: seq<real>)
    ensures Dot(a, a) >= 0.0
  {
    if a != [] {
      SquaresNonNegative(a[1..]);
      SquareNonNegative(a[0]);
    }
  }

  lemma SquareNonNegative(x: real)
    ensures x * x >= 0.0
  {
  }

  lemma LargerSquare(s: real, t: real)
    requires 0.0 <= s < t
    ensures s * s < t * t
  {
    assert Product(t - s, t + s) == t * t - s * s;
  }

  lemma Commute(x: real, y: real)
    ensures x * y == y * x && -y * -y == y * y
  {
  }

  lemma SquareOrder(s: real, t: real)
    requires s >= 0.0 && t * t <= s * s
    ensures -s <= t <= s
  {
    Commute(s, t);
    if t > s {
      LargerSquare(s, t);
    } else if -t > s {
      LargerSquare(s, -t);
    }
  }

  lemma Multiply(k: real, x: real, y: real)
    requires k >= 0.0 && x >= y
    ensures k * x >= k * y && (k > 0.0 && x > y ==> k * x > k * y)
  {
  }

  /** One step of the inequality: adding a coordinate to each vector. */
  lemma AddCoordinate(x: real, y: real, d: real, a: real, b: real)
    requires a >= 0.0 && b >= 0.0 && d * d <= a * b
    ensures (x * y + d) * (x * y + d) <= (x * x + a) * (y * y + b)
  {
    var p, q, t := x * x * b, y * y * a, 2.0 * (x * y * d);
    var m := x * x * (y * y);
    assert p >= 0.0 && q >= 0.0 && m >= 0.0 by {
      SquareNonNegative(x);
      SquareNonNegative(y);
    }
    assert t * t <= (p + q) * (p + q) by {
      calc {
        t * t;
        4.0 * (m * (d * d));
      <= { Multiply(m, a * b, d * d); }
        4.0 * (m * (a * b));
        4.0 * (p * q);
      <= { SquareNonNegative(p - q); }
        (p + q) * (p + q);
      }
    }
    SquareOrder(p + q, t);
    calc {
      (x * y + d) * (x * y + d);
      m + t + d * d;
    <=
      m + p + q + a * b;
      (x * x + a) * (y * y + b);
    }
  }

  /** The Cauchy-Schwarz inequality, also for vectors of unequal length. */
  lemma {:induction false} CauchySchwarz(a: seq<real>, b: seq<real>)
    ensures Dot(a, b) * Dot(a, b) <= Dot(a, a) * Dot(b, b)
  {
    SquaresNonNegative(a);
    SquaresNonNegative(b);
    if a == [] || b == [] {
    } else {
      CauchySchwarz(a[1..], b[1..]);
      SquaresNonNegative(a[1..]);
      SquaresNonNegative(b[1..]);
      AddCoordinate(a[0], b[0], Dot(a[1..], b[1..]), Dot(a[1..], a[1..]), Dot(b[1..], b[1..]));
    }
  }

  /** Every cosine lies in [-1, 1]. */
  lemma CosineBounded(a: Vector, b: Vector)
    ensures -1.0 <= Cosine(a, b) <= 1.0
  {
    if a.norm > 0.0 && b.norm > 0.0 {
      var d, n := Dot(a.xs, b.xs), Product(a.norm, b.norm);
      CauchySchwarz(a.xs, b.xs);
      SquareOfProduct(a.norm, b.norm);
      SquareOrder(n, d);
      Quotient(d, n);
    }
  }

  lemma SquareOfProduct(x: real, y: real)
    ensures Product(x, y) * Product(x, y) == (x * x) * (y * y)
  {
  }

  lemma Quotient(d: real, n: real)
    requires n > 0.0 && -n <= d <= n
    ensures -1.0 <= d / n <= 1.0
  {
  }

  lemma {:induction false} DotCommutes(a: seq<real>, b: seq<real>)
    ensures Dot(a, b) == Dot(b, a)
  {
    if a != [] && b != [] {
      DotCommutes(a[1..], b[1..]);
    }
  }

  /** The dot product adds up, coordinate by coordinate, the products of what both vectors have: the last coordinates of
      vectors of equal length are one summand, and what the longer of two vectors has more counts for nothing. */
  lemma {:induction false} DotIsSum(a: seq<real>, b: seq<real>, x: real, y: real, more: seq<real>)
    requires |a| == |b|
    ensures Dot([], b) == Dot(a, []) == 0.0
    ensures Dot(a + [x], b + [y]) == Dot(a, b) + x * y
    ensures Dot(a, b + more) == Dot(a + more, b) == Dot(a, b)
  {
    if a != [] {
      DotIsSum(a[1..], b[1..], x, y, more);
      assert (a + [x])[1..] == a[1..] + [x] && (b + [y])[1..] == b[1..] + [y];
      assert (a + more)[1..] == a[1..] + more && (b + more)[1..] == b[1..] + more;
    } else {
      assert [] + [x] == [x] && [] + [y] == [y] && [x][1..] == [] && [y][1..] == [];
    }
  }

  /** The cosine is the dot product of two vectors over their lengths, and 0 where one of them is zero or missing. */
  lemma CosineIsQuotient(a: Vector, b: Vector)
    ensures a.xs != [] && b.xs != [] && a.norm > 0.0 && b.norm > 0.0 ==>
              Cosine(a, b) * (a.norm * b.norm) == Dot(a.xs, b.xs)
    ensures a.xs == [] || b.xs == [] || a.norm == 0.0 || b.norm == 0.0 ==> Cosine(a, b) == 0.0
  {
    if a.norm > 0.0 && b.norm > 0.0 {
      Undone(Dot(a.xs, b.xs), Product(a.norm, b.norm));
    }
  }

  lemma Undone(d: real, n: real)
    requires n > 0.0
    ensures d / n * n == d
  {
  }

  lemma OneOver(n: real, d: real)
    requires n > 0.0 && d == n
    ensures d / n == 1.0
  {
  }

  /** Cosine is symmetric, and 1 between a vector and itself unless it is zero. */
  lemma CosineSymmetric(a: Vector, b: Vector)
    ensures Cosine(a, b) == Cosine(b, a)
    ensures a.norm > 0.0 ==> Cosine(a, a) == 1.0
  {
    DotCommutes(a.xs, b.xs);
    assert Product(a.norm, b.norm) == Product(b.norm, a.norm);
    if a.norm > 0.0 {
      LargerSquare(0.0, a.norm);
      OneOver(Product(a.norm, a.norm), Dot(a.xs, a.xs));
    }
  }

  // ----- the router -----

  datatype Anchors = Anchors(category: Category, vectors: seq<Vector>)

  datatype Score = Score(category: Category, value: real)

  /** max(_cosine(query, a) for a in anchors) */
  ghost predicate IsBest(query: Vector, vectors: seq<Vector>, best: real) {
    && (exists i :: 0 <= i < |vectors| && Cosine(query, vectors[i]) == best)
    && (forall i :: 0 <= i < |vectors| ==> Cosine(query, vectors[i]) <= best)
  }

  method BestCosine(query: Vector, vectors: seq<Vector>) returns (best: real)
    requires vectors != []
    ensures IsBest(query, vectors, best)
  {
    best := Cosine(query, vectors[0]);
    for i := 1 to |vectors|
      invariant exists k :: 0 <= k < i && Cosine(query, vectors[k]) == best
      invariant forall k :: 0 <= k < i ==> Cosine(query, vectors[k]) <= best
    {
      var c := Cosine(query, vectors[i]);
      if c > best {
        best := c;
      }
    }
  }

  /** A stable sort, best first. */
  function Insert(x: Score, sorted: seq<Score>): seq<Score> {
    if sorted == [] || x.value > sorted[0].value then [x] + sorted else [sorted[0]] + Insert(x, sorted[1..])
  }

  function SortDescending(xs: seq<Score>): seq<Score> {
    if xs == [] then [] else Insert(xs[|xs| - 1], SortDescending(xs[..|xs| - 1]))
  }

  /** The first of the best. */
  ghost predicate IsFirstBest(xs: seq<Score>, i: nat) {
    && i < |xs|
    && (forall k :: 0 <= k < |xs| ==> xs[k].value <= xs[i].value)
    && (forall k :: 0 <= k < i ==> xs[k].value < xs[i].value)
  }

  /** The best of the others. */
  ghost predicate IsRunnerUp(xs: seq<Score>, i: nat, value: real) {
    && (exists k :: 0 <= k < |xs| && k != i && xs[k].value == value)
    && (forall k :: 0 <= k < |xs| && k != i ==> xs[k].value <= value)
  }

  /** The sorted list begins with the first of the best and then a best of the others. */
  lemma {:induction false} SortedTop(xs: seq<Score>) returns (i: nat)
    requires xs != []
    ensures |SortDescending(xs)| == |xs| && IsFirstBest(xs, i) && SortDescending(xs)[0] == xs[i]
    ensures |xs| > 1 ==> IsRunnerUp(xs, i, SortDescending(xs)[1].value)
  {
    var n := |xs| - 1;
    var front, x := xs[..n], xs[n];
    if front == [] {
      i := 0;
      assert SortDescending(front) == [];
    } else {
      i := SortedTop(front);
      var sorted := SortDescending(front);
      InsertSecond(x, sorted);
      assert forall k :: 0 <= k < n ==> front[k] == xs[k];
      if x.value > sorted[0].value {
        assert IsRunnerUp(xs, n, sorted[0].value) by {
          assert xs[i].value == sorted[0].value;
        }
        i := n;
      } else {
        RunnerUpGrows(xs, i, sorted);
      }
    }
  }

  lemma {:induction false} InsertSecond(x: Score, sorted: seq<Score>)
    requires sorted != []
    ensures var r := Insert(x, sorted);
            && |r| == |sorted| + 1
            && if x.value > sorted[0].value then r[0] == x && r[1] == sorted[0]
               else r[0] == sorted[0]
                    && r[1] == if |sorted| == 1 || x.value > sorted[1].value then x else sorted[1]
  {
    InsertLength(x, sorted);
  }

  lemma {:induction false} InsertLength(x: Score, sorted: seq<Score>)
    ensures |Insert(x, sorted)| == |sorted| + 1
  {
    if sorted != [] {
      InsertLength(x, sorted[1..]);
    }
  }

  lemma RunnerUpGrows(xs: seq<Score>, i: nat, sorted: seq<Score>)
    requires |xs| > 1 && |sorted| == |xs| - 1 && i < |xs| - 1
    requires |xs| > 2 ==> IsRunnerUp(xs[..|xs| - 1], i, sorted[1].value)
    ensures var x := xs[|xs| - 1];
            IsRunnerUp(xs, i, if |sorted| == 1 || x.value > sorted[1].value then x.value else sorted[1].value)
  {
    var n := |xs| - 1;
    var front, x := xs[..n], xs[n];
    assert forall k :: 0 <= k < n ==> front[k] == xs[k];
    if |sorted| > 1 {
      var k :| 0 <= k < n && k != i && front[k].value == sorted[1].value;
      assert xs[k].value == sorted[1].value;
    }
  }

  const ABSTAIN_TOP_THRESHOLD := 0.55

  datatype Verdict = Verdict(category: Category, top1: real, top2: real)

  /** The categories that have anchors, with their best cosines, in the router's order. */
  ghost predicate AreScores(scores: seq<Score>, anchors: seq<Anchors>, query: Vector) {
    var live := Nonempty(anchors);
    && |scores| == |live|
    && forall i :: 0 <= i < |live| ==>
         scores[i].category == live[i].category && IsBest(query, live[i].vectors, scores[i].value)
  }

  function Nonempty(anchors: seq<Anchors>): seq<Anchors> {
    if anchors == [] then []
    else
      var front, last := Nonempty(anchors[..|anchors| - 1]), anchors[|anchors| - 1];
      if last.vectors == [] then front else front + [last]
  }

  /** The verdict is the category of the first global maximum and the best of the rest, or an abstention. */
  ghost predicate IsVerdict(v: Verdict, scores: seq<Score>, i: nat) {
    && IsFirstBest(scores, i) && v.top1 == scores[i].value
    && (if |scores| > 1 then IsRunnerUp(scores, i, v.top2) else v.top2 == 0.0)
    && v.category == if v.top1 < ABSTAIN_TOP_THRESHOLD then Unknown else scores[i].category
  }

  class SemanticRouter {
    const references: seq<(Category, seq<string>)>
    var anchors: seq<Anchors>

    constructor (references: seq<(Category, seq<string>)>)
      ensures this.references == references && anchors == []
    {
      this.references, anchors := references, [];
    }

    /** Embed the references once; an example that cannot be embedded is left out. */
    method Fit(embed: string -> Option<Vector>)
      modifies this
      ensures old(anchors) != [] ==> anchors == old(anchors)
      ensures old(anchors) == [] ==>
                && |anchors| == |references|
                && forall i :: 0 <= i < |references| ==>
                     anchors[i] == Anchors(references[i].0, Embedded(embed, references[i].1))
    {
      if anchors != [] {
        return;
      }
      for i := 0 to |references|
        invariant |anchors| == i
        invariant forall k :: 0 <= k < i ==> anchors[k] == Anchors(references[k].0, Embedded(embed, references[k].1))
      {
        var embs := EmbedAll(embed, references[i].1);
        anchors := anchors + [Anchors(references[i].0, embs)];
      }
    }

    method Classify(query: Vector) returns (v: Verdict, ghost scores: seq<Score>, ghost i: nat)
      ensures query.xs != [] ==> AreScores(scores, anchors, query)
      ensures query.xs == [] || scores == [] ==> v == Verdict(Unknown, 0.0, 0.0)
      ensures query.xs != [] && scores != [] ==> IsVerdict(v, scores, i)
      ensures -1.0 <= v.top1 <= 1.0 && -1.0 <= v.top2 <= 1.0
      ensures query.xs != [] ==>
                forall a, k :: a in anchors && 0 <= k < |a.vectors| ==> Cosine(query, a.vectors[k]) <= v.top1
      ensures v.category != Unknown ==> v.top1 >= 0.55
      ensures query.xs != [] && (exists a :: a in anchors && a.vectors != []) ==>
                exists a, k :: a in anchors && 0 <= k < |a.vectors| && Cosine(query, a.vectors[k]) == v.top1
                               && v.category == if v.top1 < 0.55 then Unknown else a.category
    {
      v, scores, i := Verdict(Unknown, 0.0, 0.0), [], 0;
      if anchors == [] || query.xs == [] {
        return;
      }
      var all := ScoreAll(query, anchors);
      scores := all;
      if all == [] {
        forall a | a in anchors ensures a.vectors == [] {
          NonemptyKeeps(anchors, a);
        }
        return;
      }
      var sorted := SortDescending(all);
      i := SortedTop(all);
      ScoresBounded(query, anchors, all);
      var top2 := if |sorted| > 1 then sorted[1].value else 0.0;
      v := Verdict(if sorted[0].value < ABSTAIN_TOP_THRESHOLD then Unknown else sorted[0].category, sorted[0].value, top2);
      forall a, k | a in anchors && 0 <= k < |a.vectors| ensures Cosine(query, a.vectors[k]) <= v.top1 {
        BestOfAll(query, anchors, all, i, a, k);
      }
      ghost var a, k := BestIsThere(query, anchors, all, i);
    }
  }

  function Embedded(embed: string -> Option<Vector>, examples: seq<string>): seq<Vector> {
    if examples == [] then []
    else
      var front, e := Embedded(embed, examples[..|examples| - 1]), embed(examples[|examples| - 1]);
      if e.None? then front else front + [e.value]
  }

  /** Which of the examples can be embedded. */
  function Embeddable(embed: string -> Option<Vector>, examples: seq<string>): set<nat> {
    set i: nat | i < |examples| && embed(examples[i]).Some?
  }

  /** Of the examples exactly those that can be embedded are kept, each once. */
  lemma {:induction false} EmbeddedKeeps(embed: string -> Option<Vector>, examples: seq<string>, v: Vector)
    ensures v in Embedded(embed, examples) <==> exists i :: 0 <= i < |examples| && embed(examples[i]) == Some(v)
    ensures |Embedded(embed, examples)| == |Embeddable(embed, examples)|
  {
    if examples != [] {
      var n := |examples| - 1;
      EmbeddedKeeps(embed, examples[..n], v);
      assert forall i :: 0 <= i < n ==> examples[..n][i] == examples[i];
      OneMoreExample(embed, examples);
    }
  }

  lemma {:induction false} OneMoreExample(embed: string -> Option<Vector>, examples: seq<string>)
    requires examples != []
    ensures var n := |examples| - 1;
            |Embeddable(embed, examples)| == |Embeddable(embed, examples[..n])| + if embed(examples[n]).Some? then 1 else 0
  {
    var n := |examples| - 1;
    var last := if embed(examples[n]).Some? then {n} else {};
    assert Embeddable(embed, examples) == Embeddable(embed, examples[..n]) + last;
    assert Embeddable(embed, examples[..n]) !! last;
  }

  lemma {:induction false} NonemptyKeeps(anchors: seq<Anchors>, a: Anchors)
    ensures a in Nonempty(anchors) <==> a in anchors && a.vectors != []
  {
    if anchors != [] {
      NonemptyKeeps(anchors[..|anchors| - 1], a);
      assert anchors == anchors[..|anchors| - 1] + [anchors[|anchors| - 1]];
    }
  }

  /** The best score is the best cosine with any anchor of any category. */
  lemma BestOfAll(query: Vector, anchors: seq<Anchors>, scores: seq<Score>, i: nat, a: Anchors, k: nat)
    requires AreScores(scores, anchors, query) && IsFirstBest(scores, i)
    requires a in anchors && k < |a.vectors|
    ensures Cosine(query, a.vectors[k]) <= scores[i].value
  {
    NonemptyKeeps(anchors, a);
    var live := Nonempty(anchors);
    var j :| 0 <= j < |live| && live[j] == a;
    assert IsBest(query, live[j].vectors, scores[j].value);
  }

  lemma BestIsThere(query: Vector, anchors: seq<Anchors>, scores: seq<Score>, i: nat) returns (a: Anchors, k: nat)
    requires AreScores(scores, anchors, query) && i < |scores|
    ensures a in anchors && a.category == scores[i].category
    ensures k < |a.vectors| && Cosine(query, a.vectors[k]) == scores[i].value
  {
    a := Nonempty(anchors)[i];
    NonemptyKeeps(anchors, a);
    var j :| 0 <= j < |a.vectors| && Cosine(query, a.vectors[j]) == scores[i].value;
    k := j;
  }

  method EmbedAll(embed: string -> Option<Vector>, examples: seq<string>) returns (embs: seq<Vector>)
    ensures embs == Embedded(embed, examples)
  {
    embs := [];
    for i := 0 to |examples|
      invariant embs == Embedded(embed, examples[..i])
    {
      assert examples[..i + 1][..i] == examples[..i];
      var e := embed(examples[i]);
      if e.Some? {
        embs := embs + [e.value];
      }
    }
    assert examples[..|examples|] == examples;
  }

  method ScoreAll(query: Vector, anchors: seq<Anchors>) returns (scores: seq<Score>)
    ensures AreScores(scores, anchors, query)
  {
    scores := [];
    for i := 0 to |anchors|
      invariant AreScores(scores, anchors[..i], query)
    {
      assert anchors[..i + 1][..i] == anchors[..i];
      if anchors[i].vectors != [] {
        var best := BestCosine(query, anchors[i].vectors);
        scores := scores + [Score(anchors[i].category, best)];
      }
    }
    assert anchors[..|anchors|] == anchors;
  }

  lemma ScoresBounded(query: Vector, anchors: seq<Anchors>, scores: seq<Score>)
    requires AreScores(scores, anchors, query)
    ensures forall i :: 0 <= i < |scores| ==> -1.0 <= scores[i].value <= 1.0
  {
    var live := Nonempty(anchors);
    forall i | 0 <= i < |scores| ensures -1.0 <= scores[i].value <= 1.0 {
      var k :| 0 <= k < |live[i].vectors| && Cosine(query, live[i].vectors[k]) == scores[i].value;
      CosineBounded(query, live[i].vectors[k]);
    }
  }

  // ----- the hybrid classification -----

  /** What the patterns match in a query. */
  datatype Signals = Signals(anchored: bool, meta: bool, live: bool, forensic: bool, procedural: bool)

  function ByRegex(s: Signals): Category {
    if s.live && s.forensic then Mixed
    else if s.live then Live
    else if s.forensic then Forensic
    else if s.procedural then Procedural
    else Unknown
  }

  const LLM_FALLBACK_MARGIN := 0.05
  const CASUAL_MIN_SCORE := 0.72
  const CASUAL_MIN_MARGIN := 0.10

  /** The router says casual, and says it clearly. */
  predicate ConfirmsCasual(v: Verdict) {
    v.category.Casual? && v.top1 >= CASUAL_MIN_SCORE && v.top1 - v.top2 >= CASUAL_MIN_MARGIN
  }

  /** The router's word is taken without asking the model. */
  predicate Accepted(v: Verdict) {
    && !v.category.Unknown? && v.top1 - v.top2 >= LLM_FALLBACK_MARGIN
    && (v.category.Casual? ==> ConfirmsCasual(v))
  }

  datatype Layer = Regex | RegexSemantic | Semantic | Llm | SemanticLowConf | Default

  /** `router` is None without a router or an embedding, and `llm` None without a model; a model that fails or answers
      nonsense answers Unknown. */
  method ClassifyQuery(s: Signals, router: Option<Verdict>, llm: Option<Category>)
    returns (category: Category, layer: Layer)
    ensures category.Casual? <==> CasualGate(s, router, llm)
    ensures !s.anchored && ByRegex(s) != Unknown ==>
              category == if s.meta && router.Some? && ConfirmsCasual(router.value) then Casual else ByRegex(s)
    ensures !s.anchored && ByRegex(s) == Unknown ==>
              category == if router.None? then Unknown
                          else if Accepted(router.value) || (s.meta && ConfirmsCasual(router.value)) then router.value.category
                          else if llm.Some? && !llm.value.Unknown? then llm.value
                          else if router.value.category.Casual? then Unknown
                          else router.value.category
    ensures var sure := && router.Some? && router.value.category == Casual && router.value.top1 >= 0.72
                        && router.value.top1 - router.value.top2 >= 0.10;
            category ==
              if s.anchored || (s.meta && sure) then Casual
              else if s.live then (if s.forensic then Mixed else Live)
              else if s.forensic then Forensic
              else if s.procedural then Procedural
              else if router == None then Unknown
              else
                var cat := router.value.category;
                if cat != Unknown && router.value.top1 - router.value.top2 >= 0.05 && (cat == Casual ==> sure) then cat
                else if llm.Some? && llm.value != Unknown then llm.value
                else if cat == Casual then Unknown
                else cat
    ensures var pattern := s.live || s.forensic || s.procedural;
            var sure := && router.Some? && router.value.category == Casual && router.value.top1 >= 0.72
                        && router.value.top1 - router.value.top2 >= 0.10;
            layer ==
              if s.anchored then Regex
              else if s.meta && sure then RegexSemantic
              else if pattern then Regex
              else if router == None then Default
              else
                var cat := router.value.category;
                if cat != Unknown && router.value.top1 - router.value.top2 >= 0.05 && (cat == Casual ==> sure) then Semantic
                else if llm.Some? && llm.value != Unknown then Llm
                else if cat == Unknown || cat == Casual then Default
                else SemanticLowConf
    ensures layer.Llm? ==> router.Some? && !Accepted(router.value) && llm == Some(category)
  {
    if s.anchored {
      return Casual, Regex;
    }
    if s.meta && router.Some? {
      var v := router.value;
      if v.category.Casual? && v.top1 >= CASUAL_MIN_SCORE && v.top1 - v.top2 >= CASUAL_MIN_MARGIN {
        return Casual, RegexSemantic;
      }
    }
    category := ByRegex(s);
    if !category.Unknown? {
      return category, Regex;
    }
    if router.Some? {
      var cat, margin := router.value.category, router.value.top1 - router.value.top2;
      var underconfident := cat.Casual? && (router.value.top1 < CASUAL_MIN_SCORE || margin < CASUAL_MIN_MARGIN);
      if !cat.Unknown? && margin >= LLM_FALLBACK_MARGIN && !underconfident {
        return cat, Semantic;
      }
      if llm.Some? {
        if !llm.value.Unknown? {
          return llm.value, Llm;
        }
      }
      if !cat.Unknown? && !underconfident {
        return cat, SemanticLowConf;
      }
    }
    return Unknown, Default;
  }

  /** The only ways to the verdict that skips retrieval: an anchored greeting; a clear casual score of the router, on a
      meta question or where no other pattern matches; or the model, asked where no pattern matches and the router is
      not sure. */
  predicate CasualGate(s: Signals, router: Option<Verdict>, llm: Option<Category>) {
    || s.anchored
    || (router.Some? && ConfirmsCasual(router.value) && (s.meta || ByRegex(s).Unknown?))
    || (ByRegex(s).Unknown? && router.Some? && !Accepted(router.value) && llm == Some(Casual))
  }
}
