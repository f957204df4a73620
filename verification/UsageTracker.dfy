/** The in-memory usage tracker (opsrag/usage.py, lines 49-293) and its seeding from the persisted events
    (opsrag/usage_persistence.py, lines 215-249).

    Every figure of the summary is proved to be a sum over the calls recorded or seeded so far.  Costs are unrounded;
    time stamps and the persistence hook are not part of this model. */
module UsageTracker {

  import opened Options
  import opened Rollup

  /** What the events are grouped by.  A purpose may be missing (None) or empty. */
  datatype Tag = Tag(model: string, purpose: Option<string>)

  datatype ModelUsage = ModelUsage(total: Usage, byPurpose: map<string, Usage>)

  /** Dollars per million tokens and per call; a model with no entry is free. */
  datatype Rate = Rate(input: real, output: real, perCall: real)

  const UNUSED := ModelUsage(NOTHING, map[])

  function Bucket(purpose: Option<string>): string {
    if purpose.None? || purpose.value == "" then "unknown" else purpose.value
  }

  function Slice(slices: map<string, Usage>, bucket: string): Usage {
    if bucket in slices then slices[bucket] else NOTHING
  }

  function Model(models: map<string, ModelUsage>, model: string): ModelUsage {
    if model in models then models[model] else UNUSED
  }

  function BumpModel(m: ModelUsage, bucket: string, u: Usage): ModelUsage {
    ModelUsage(m.total.Plus(u), m.byPurpose[bucket := Slice(m.byPurpose, bucket).Plus(u)])
  }

  function Bump(models: map<string, ModelUsage>, model: string, bucket: string, u: Usage): map<string, ModelUsage> {
    models[model := BumpModel(Model(models, model), bucket, u)]
  }

  /** The counters after these calls, one at a time. */
  function Added(rows: seq<Row<Tag>>): map<string, ModelUsage> {
    if rows == [] then map[]
    else
      var r := rows[|rows| - 1];
      Bump(Added(rows[..|rows| - 1]), r.key.model, Bucket(r.key.purpose), r.usage)
  }

  lemma {:induction false} AddedSnoc(rows: seq<Row<Tag>>, r: Row<Tag>)
    ensures Added(rows + [r]) == Bump(Added(rows), r.key.model, Bucket(r.key.purpose), r.usage)
  {
    assert (rows + [r])[..|rows|] == rows;
  }

  function RateOf(prices: map<string, Rate>, model: string): Rate {
    if model in prices then prices[model] else Rate(0.0, 0.0, 0.0)
  }

  function Price(r: Rate, u: Usage): real {
    u.input as real * r.input / 1_000_000.0 + u.output as real * r.output / 1_000_000.0 + u.calls as real * r.perCall
  }

  lemma PriceAdds(r: Rate, u: Usage, v: Usage)
    ensures Price(r, u.Plus(v)) == Price(r, u) + Price(r, v) && Price(r, NOTHING) == 0.0
  {
    Spread(u.input, v.input, r.input);
    Spread(u.output, v.output, r.output);
    Spread(u.calls, v.calls, r.perCall);
  }

  lemma Spread(a: int, b: int, x: real)
    ensures (a + b) as real * x == a as real * x + b as real * x
  {
  }

  /** What a call costs: so much a million tokens in and out, by the rates of its own model, and so much a call; nothing
      for a model without a price.  With `PriceAdds` this is every price. */
  lemma CallCosts(prices: map<string, Rate>, model: string, purpose: Option<string>, a: int, b: int, calls: int, latency: real)
    ensures var call := Row(Tag(model, purpose), Usage(1_000_000 * a, 1_000_000 * b, calls, latency));
            && (model !in prices ==> PriceOf(prices)(call) == 0.0)
            && (model in prices ==>
                  var rate := prices[model];
                  PriceOf(prices)(call) == a as real * rate.input + b as real * rate.output + calls as real * rate.perCall)
  {
    if model in prices {
      Millions(a, prices[model].input);
      Millions(b, prices[model].output);
    }
  }

  lemma Millions(a: int, x: real)
    ensures (1_000_000 * a) as real * x / 1_000_000.0 == a as real * x
  {
  }

  predicate Indexing(bucket: string) { bucket == "embed-index" || bucket == "contextual-chunk" }

  // ----- selections of calls -----

  function OfModel(model: string): Tag -> bool { (t: Tag) => t.model == model }

  /** A call counts under its purpose, or under `unknown` if it has none or an empty one. */
  predicate Under(t: Tag, bucket: string) {
    if t.purpose in {None, Some("")} then bucket == "unknown" else t.purpose == Some(bucket)
  }

  function OfPurpose(bucket: string): Tag -> bool { (t: Tag) => Under(t, bucket) }

  function OfSlice(model: string, bucket: string): Tag -> bool {
    (t: Tag) => t.model == model && Under(t, bucket)
  }

  /** All calls, or those of the indexing (true) or query (false) purposes. */
  function InCategory(category: Option<bool>): Tag -> bool {
    (t: Tag) => category.None? || category.value == (t.purpose in {Some("embed-index"), Some("contextual-chunk")})
  }

  /** The price of a call by itself. */
  function PriceOf(prices: map<string, Rate>): Row<Tag> -> real {
    (r: Row<Tag>) => Price(RateOf(prices, r.key.model), r.usage)
  }

  // ----- counters are sums -----

  lemma {:induction false} SliceInModel(rows: seq<Row<Tag>>, m: string, b: string)
    ensures Count(rows, OfSlice(m, b)) <= Count(rows, OfModel(m))
    ensures Count(rows, OfSlice(m, b)) <= Count(rows, OfPurpose(b))
  {
    if rows != [] {
      SliceInModel(rows[..|rows| - 1], m, b);
    }
  }

  lemma {:induction false} AddedKeys(rows: seq<Row<Tag>>, m: string, b: string)
    ensures m in Added(rows) <==> Count(rows, OfModel(m)) > 0
    ensures b in Model(Added(rows), m).byPurpose <==> Count(rows, OfSlice(m, b)) > 0
  {
    if rows == [] {
    } else {
      AddedKeys(rows[..|rows| - 1], m, b);
    }
  }

  /** Each counter of the tracker is the sum of the calls it is for, and there is one where there are calls. */
  lemma {:induction false} AddedSums(rows: seq<Row<Tag>>, m: string, b: string, c: Column)
    ensures m in Added(rows) <==> Count(rows, OfModel(m)) > 0
    ensures b in Model(Added(rows), m).byPurpose <==> Count(rows, OfSlice(m, b)) > 0
    ensures Field(Model(Added(rows), m).total, c) == Sum(rows, OfModel(m), Of(c))
    ensures Field(Slice(Model(Added(rows), m).byPurpose, b), c) == Sum(rows, OfSlice(m, b), Of(c))
  {
    AddedKeys(rows, m, b);
    if rows == [] {
    } else {
      var front, r := rows[..|rows| - 1], rows[|rows| - 1];
      AddedSums(front, m, b, c);
      FieldPlus(Model(Added(front), m).total, r.usage, c);
      FieldPlus(Slice(Model(Added(front), m).byPurpose, b), r.usage, c);
    }
  }

  ghost predicate Agree(xs: seq<Row<Tag>>, ys: seq<Row<Tag>>, which: Tag -> bool, c: Column) {
    && (Count(xs, which) > 0 <==> Count(ys, which) > 0)
    && Sum(xs, which, Of(c)) == Sum(ys, which, Of(c))
  }

  /** Two histories that agree on every selection leave the same tracker. */
  lemma {:induction false} SameSums(xs: seq<Row<Tag>>, ys: seq<Row<Tag>>)
    requires forall which, c :: Agree(xs, ys, which, c)
    ensures Added(xs) == Added(ys)
  {
    forall m
      ensures m in Added(xs) <==> m in Added(ys)
      ensures Model(Added(xs), m).total == Model(Added(ys), m).total
    {
      SameModel(xs, ys, m, "");
    }
    forall m, b ensures SameSlice(Added(xs), Added(ys), m, b) {
      SameModel(xs, ys, m, b);
    }
    SameCounters(Added(xs), Added(ys));
  }

  lemma {:induction false} SameModel(xs: seq<Row<Tag>>, ys: seq<Row<Tag>>, m: string, b: string)
    requires forall which, c :: Agree(xs, ys, which, c)
    ensures m in Added(xs) <==> m in Added(ys)
    ensures Model(Added(xs), m).total == Model(Added(ys), m).total
    ensures SameSlice(Added(xs), Added(ys), m, b)
  {
    var x, y := Model(Added(xs), m), Model(Added(ys), m);
    forall c
      ensures Field(x.total, c) == Field(y.total, c)
      ensures Field(Slice(x.byPurpose, b), c) == Field(Slice(y.byPurpose, b), c)
      ensures (m in Added(xs) <==> m in Added(ys)) && (b in x.byPurpose <==> b in y.byPurpose)
    {
      AddedSums(xs, m, b, c);
      AddedSums(ys, m, b, c);
      assert Agree(xs, ys, OfModel(m), c) && Agree(xs, ys, OfSlice(m, b), c);
    }
    FieldsDecide(x.total, y.total);
    FieldsDecide(Slice(x.byPurpose, b), Slice(y.byPurpose, b));
    assert Field(x.total, Calls) == Field(y.total, Calls);
  }

  ghost predicate SameSlice(x: map<string, ModelUsage>, y: map<string, ModelUsage>, m: string, b: string) {
    && (b in Model(x, m).byPurpose <==> b in Model(y, m).byPurpose)
    && Slice(Model(x, m).byPurpose, b) == Slice(Model(y, m).byPurpose, b)
  }

  lemma SameCounters(x: map<string, ModelUsage>, y: map<string, ModelUsage>)
    requires forall m :: m in x <==> m in y
    requires forall m :: Model(x, m).total == Model(y, m).total
    requires forall m, b :: SameSlice(x, y, m, b)
    ensures x == y
  {
    forall m | m in x ensures x[m] == y[m] {
      assert Model(x, m) == x[m] && Model(y, m) == y[m];
      forall b ensures b in x[m].byPurpose <==> b in y[m].byPurpose
               ensures b in x[m].byPurpose ==> x[m].byPurpose[b] == y[m].byPurpose[b] {
        assert SameSlice(x, y, m, b);
      }
      assert x[m].byPurpose == y[m].byPurpose;
    }
  }

  // ----- main results about the counters -----

  /** The order of the calls does not matter to any counter. */
  lemma {:induction false} OrderIrrelevant(xs: seq<Row<Tag>>, ys: seq<Row<Tag>>)
    requires multiset(xs) == multiset(ys)
    ensures Added(xs) == Added(ys)
  {
    forall which, c ensures Agree(xs, ys, which, c) {
      SumPermuted(xs, ys, which, Of(c));
    }
    SameSums(xs, ys);
  }

  /** Seeding a fresh tracker from the roll-up leaves it as if the events had been recorded one by one, in any order. */
  lemma {:induction false} SeedingIsRecording(groups: seq<Row<Tag>>, events: seq<Row<Tag>>, recorded: seq<Row<Tag>>)
    requires GroupBy(groups, events) && multiset(recorded) == multiset(events)
    ensures Added(groups) == Added(recorded)
  {
    forall which, c ensures Agree(groups, events, which, c) {
      GroupsAddUp(groups, events, which, c);
    }
    SameSums(groups, events);
    OrderIrrelevant(recorded, events);
  }

  // ----- sums over the models -----

  ghost function SumMap<V>(m: map<string, V>, view: (string, V) -> real): real
    decreases |m|
  {
    if m == map[] then 0.0
    else
      var k :| k in m;
      view(k, m[k]) + SumMap(m - {k}, view)
  }

  lemma {:induction false} SumMapTake<V>(m: map<string, V>, view: (string, V) -> real, k: string)
    requires k in m
    ensures SumMap(m, view) == view(k, m[k]) + SumMap(m - {k}, view)
    decreases |m|
  {
    var j :| j in m && SumMap(m, view) == view(j, m[j]) + SumMap(m - {j}, view);
    if j != k {
      SumMapTake(m - {j}, view, k);
      SumMapTake(m - {k}, view, j);
      assert m - {j} - {k} == m - {k} - {j};
    }
  }

  /** Changing one entry of a map changes the sum by the difference. */
  lemma SumMapUpdate<V>(m: map<string, V>, view: (string, V) -> real, k: string, v: V)
    ensures SumMap(m[k := v], view)
         == SumMap(m, view) - (if k in m then view(k, m[k]) else 0.0) + view(k, v)
  {
    SumMapTake(m[k := v], view, k);
    if k in m {
      SumMapTake(m, view, k);
      assert m[k := v] - {k} == m - {k};
    } else {
      assert m[k := v] - {k} == m;
    }
  }

  /** A view of a model's counters grows by the amount of each call in question, and by nothing for another. */
  ghost predicate Additive(view: (string, ModelUsage) -> real, which: Tag -> bool, amount: Row<Tag> -> real) {
    forall u: ModelUsage, r: Row<Tag> :: Grows(view, which, amount, u, r)
  }

  ghost predicate Grows(view: (string, ModelUsage) -> real, which: Tag -> bool, amount: Row<Tag> -> real,
                        u: ModelUsage, r: Row<Tag>) {
    && view(r.key.model, UNUSED) == 0.0
    && view(r.key.model, BumpModel(u, Bucket(r.key.purpose), r.usage))
       == view(r.key.model, u) + if which(r.key) then amount(r) else 0.0
  }

  /** The sum of a view over the models is the sum of its amount over the calls. */
  lemma {:induction false} ModelsSum(rows: seq<Row<Tag>>, view: (string, ModelUsage) -> real,
                                     which: Tag -> bool, amount: Row<Tag> -> real)
    requires Additive(view, which, amount)
    ensures SumMap(Added(rows), view) == Sum(rows, which, amount)
  {
    if rows == [] {
    } else {
      var front, r := rows[..|rows| - 1], rows[|rows| - 1];
      ModelsSum(front, view, which, amount);
      var before := Model(Added(front), r.key.model);
      SumMapUpdate(Added(front), view, r.key.model, BumpModel(before, Bucket(r.key.purpose), r.usage));
      assert Grows(view, which, amount, before, r);
    }
  }

  function TotalView(c: Column): (string, ModelUsage) -> real { (m: string, u: ModelUsage) => Field(u.total, c) }

  function CostView(prices: map<string, Rate>): (string, ModelUsage) -> real {
    (m: string, u: ModelUsage) => Price(RateOf(prices, m), u.total)
  }

  function SliceView(b: string, c: Column): (string, ModelUsage) -> real {
    (m: string, u: ModelUsage) => Field(Slice(u.byPurpose, b), c)
  }

  function SliceCostView(b: string, prices: map<string, Rate>): (string, ModelUsage) -> real {
    (m: string, u: ModelUsage) => Price(RateOf(prices, m), Slice(u.byPurpose, b))
  }

  lemma ViewsAdd(b: string, c: Column, prices: map<string, Rate>)
    ensures Additive(TotalView(c), InCategory(None), Of(c))
    ensures Additive(CostView(prices), InCategory(None), PriceOf(prices))
    ensures Additive(SliceView(b, c), OfPurpose(b), Of(c))
    ensures Additive(SliceCostView(b, prices), OfPurpose(b), PriceOf(prices))
  {
    forall u: ModelUsage, r: Row<Tag>
      ensures Grows(TotalView(c), InCategory(None), Of(c), u, r)
      ensures Grows(SliceView(b, c), OfPurpose(b), Of(c), u, r)
    {
      FieldPlus(u.total, r.usage, c);
      FieldPlus(Slice(u.byPurpose, b), r.usage, c);
    }
    forall u: ModelUsage, r: Row<Tag>
      ensures Grows(CostView(prices), InCategory(None), PriceOf(prices), u, r)
      ensures Grows(SliceCostView(b, prices), OfPurpose(b), PriceOf(prices), u, r)
    {
      PriceAdds(RateOf(prices, r.key.model), u.total, r.usage);
      PriceAdds(RateOf(prices, r.key.model), Slice(u.byPurpose, b), r.usage);
    }
  }

  /** What the models add up to is what the calls add up to, in every column, for every purpose, and in money. */
  lemma {:induction false} ModelSums(rows: seq<Row<Tag>>, b: string, c: Column, prices: map<string, Rate>)
    ensures SumMap(Added(rows), TotalView(c)) == Sum(rows, InCategory(None), Of(c))
    ensures SumMap(Added(rows), CostView(prices)) == Sum(rows, InCategory(None), PriceOf(prices))
    ensures SumMap(Added(rows), SliceView(b, c)) == Sum(rows, OfPurpose(b), Of(c))
    ensures SumMap(Added(rows), SliceCostView(b, prices)) == Sum(rows, OfPurpose(b), PriceOf(prices))
  {
    ViewsAdd(b, c, prices);
    ModelsSum(rows, TotalView(c), InCategory(None), Of(c));
    ModelsSum(rows, CostView(prices), InCategory(None), PriceOf(prices));
    ModelsSum(rows, SliceView(b, c), OfPurpose(b), Of(c));
    ModelsSum(rows, SliceCostView(b, prices), OfPurpose(b), PriceOf(prices));
  }

  // ----- sums over the purposes -----

  function ColumnView(c: Column): (string, Usage) -> real { (b: string, u: Usage) => Field(u, c) }

  /** After every call, each model's totals are the sums of its slices. */
  lemma {:induction false} TotalsAreSlices(rows: seq<Row<Tag>>, m: string, c: Column)
    ensures SumMap(Model(Added(rows), m).byPurpose, ColumnView(c)) == Field(Model(Added(rows), m).total, c)
  {
    if rows != [] {
      var front, r := rows[..|rows| - 1], rows[|rows| - 1];
      TotalsAreSlices(front, m, c);
      if r.key.model == m {
        var u, b := Model(Added(front), m), Bucket(r.key.purpose);
        SumMapUpdate(u.byPurpose, ColumnView(c), b, Slice(u.byPurpose, b).Plus(r.usage));
        FieldPlus(Slice(u.byPurpose, b), r.usage, c);
        FieldPlus(u.total, r.usage, c);
      }
    }
  }

  datatype Figures = Figures(usage: Usage, cost: real)

  function Figure(figures: map<string, Figures>, b: string): Figures {
    if b in figures then figures[b] else Figures(NOTHING, 0.0)
  }

  function AddTo(f: Figures, u: Usage, cost: real): Figures { Figures(f.usage.Plus(u), f.cost + cost) }

  function CategoryView(category: Option<bool>): (string, Figures) -> real {
    (b: string, f: Figures) => if category.None? || Indexing(b) == category.value then f.cost else 0.0
  }

  /** The figures of each purpose there is, built up call by call. */
  function Purposes(rows: seq<Row<Tag>>, prices: map<string, Rate>): map<string, Figures> {
    if rows == [] then map[]
    else
      var figures, r := Purposes(rows[..|rows| - 1], prices), rows[|rows| - 1];
      var b := Bucket(r.key.purpose);
      figures[b := AddTo(Figure(figures, b), r.usage, PriceOf(prices)(r))]
  }

  lemma {:induction false} PurposesSum(rows: seq<Row<Tag>>, prices: map<string, Rate>, b: string, c: Column)
    ensures b in Purposes(rows, prices) <==> Count(rows, OfPurpose(b)) > 0
    ensures Field(Figure(Purposes(rows, prices), b).usage, c) == Sum(rows, OfPurpose(b), Of(c))
    ensures Figure(Purposes(rows, prices), b).cost == Sum(rows, OfPurpose(b), PriceOf(prices))
  {
    if rows == [] {
    } else {
      var front, r := rows[..|rows| - 1], rows[|rows| - 1];
      PurposesSum(front, prices, b, c);
      FieldPlus(Figure(Purposes(front, prices), b).usage, r.usage, c);
    }
  }

  /** The costs of the purposes of a category, or of all of them, add up to the price of its calls. */
  lemma {:induction false} CategorySum(rows: seq<Row<Tag>>, prices: map<string, Rate>, category: Option<bool>)
    ensures SumMap(Purposes(rows, prices), CategoryView(category)) == Sum(rows, InCategory(category), PriceOf(prices))
  {
    if rows == [] {
    } else {
      var front, r := rows[..|rows| - 1], rows[|rows| - 1];
      CategorySum(front, prices, category);
      var figures, b := Purposes(front, prices), Bucket(r.key.purpose);
      SumMapUpdate(figures, CategoryView(category), b, AddTo(Figure(figures, b), r.usage, PriceOf(prices)(r)));
    }
  }

  /** Every call is an indexing call or a query call. */
  lemma {:induction false} CategoriesPartition(rows: seq<Row<Tag>>, amount: Row<Tag> -> real)
    ensures Sum(rows, InCategory(Some(true)), amount) + Sum(rows, InCategory(Some(false)), amount)
         == Sum(rows, InCategory(None), amount)
  {
    if rows != [] {
      CategoriesPartition(rows[..|rows| - 1], amount);
    }
  }

  // ----- the summary -----

  datatype Summary = Summary(total: Usage, cost: real, indexingCost: real, queryCost: real, activeSessions: nat,
                             models: map<string, ModelFigures>, byPurpose: map<string, Figures>)

  /** What a model spent, and its calls per purpose. */
  datatype ModelFigures = ModelFigures(own: Figures, byPurpose: map<string, Usage>)

  lemma Visit(models: map<string, ModelUsage>, todo: set<string>, m: string, view: (string, ModelUsage) -> real)
    requires todo <= models.Keys && m in todo
    ensures SumMap(models - (todo - {m}), view) == SumMap(models - todo, view) + view(m, models[m])
  {
    SumMapUpdate(models - todo, view, m, models[m]);
    assert models - (todo - {m}) == (models - todo)[m := models[m]];
  }

  /** The first lines of the summary: sums over the models. */
  method Totals(models: map<string, ModelUsage>, prices: map<string, Rate>) returns (total: Usage, cost: real)
    ensures forall c :: Field(total, c) == SumMap(models, TotalView(c))
    ensures cost == SumMap(models, CostView(prices))
  {
    total, cost := NOTHING, 0.0;
    var todo := models.Keys;
    assert models - todo == map[];
    while todo != {}
      invariant todo <= models.Keys
      invariant forall c :: Field(total, c) == SumMap(models - todo, TotalView(c))
      invariant cost == SumMap(models - todo, CostView(prices))
    {
      var m :| m in todo;
      forall c ensures Field(total.Plus(models[m].total), c) == SumMap(models - (todo - {m}), TotalView(c)) {
        Visit(models, todo, m, TotalView(c));
        FieldPlus(total, models[m].total, c);
      }
      Visit(models, todo, m, CostView(prices));
      total, cost := total.Plus(models[m].total), cost + Price(RateOf(prices, m), models[m].total);
      todo := todo - {m};
    }
    assert models - {} == models;
  }

  /** One model's turn of the per-purpose roll-up. */
  method AddSlices(figures: map<string, Figures>, slices: map<string, Usage>, rate: Rate)
    returns (after: map<string, Figures>)
    ensures forall b :: b in after <==> b in figures || b in slices
    ensures forall b :: Figure(after, b) == AddTo(Figure(figures, b), Slice(slices, b), Price(rate, Slice(slices, b)))
  {
    PriceAdds(rate, NOTHING, NOTHING);
    after := figures;
    var todo := slices.Keys;
    while todo != {}
      invariant todo <= slices.Keys
      invariant forall b :: b in after <==> b in figures || (b in slices && b !in todo)
      invariant forall b :: Figure(after, b)
                 == if b in todo then Figure(figures, b)
                    else AddTo(Figure(figures, b), Slice(slices, b), Price(rate, Slice(slices, b)))
    {
      var b :| b in todo;
      after := after[b := AddTo(Figure(after, b), slices[b], Price(rate, slices[b]))];
      todo := todo - {b};
    }
  }

  ghost predicate Somewhere(models: map<string, ModelUsage>, b: string) {
    exists m :: m in models && b in models[m].byPurpose
  }

  /** The per-purpose roll-up over all models. */
  method RollUp(models: map<string, ModelUsage>, prices: map<string, Rate>) returns (figures: map<string, Figures>)
    ensures forall b :: b in figures <==> Somewhere(models, b)
    ensures forall b, c :: Field(Figure(figures, b).usage, c) == SumMap(models, SliceView(b, c))
    ensures forall b :: Figure(figures, b).cost == SumMap(models, SliceCostView(b, prices))
  {
    figures := map[];
    var todo := models.Keys;
    assert models - todo == map[];
    while todo != {}
      invariant todo <= models.Keys
      invariant forall b :: b in figures <==> Somewhere(models - todo, b)
      invariant forall b, c :: Field(Figure(figures, b).usage, c) == SumMap(models - todo, SliceView(b, c))
      invariant forall b :: Figure(figures, b).cost == SumMap(models - todo, SliceCostView(b, prices))
    {
      var m :| m in todo;
      var after := AddSlices(figures, models[m].byPurpose, RateOf(prices, m));
      var rest := todo - {m};
      forall b, c ensures Field(Figure(after, b).usage, c) == SumMap(models - rest, SliceView(b, c)) {
        Visit(models, todo, m, SliceView(b, c));
        FieldPlus(Figure(figures, b).usage, Slice(models[m].byPurpose, b), c);
      }
      forall b
        ensures Figure(after, b).cost == SumMap(models - rest, SliceCostView(b, prices))
        ensures b in after <==> Somewhere(models - rest, b)
      {
        Visit(models, todo, m, SliceCostView(b, prices));
        SomewhereVisit(models, todo, m, b);
      }
      figures, todo := after, rest;
    }
    assert models - {} == models;
  }

  lemma SomewhereVisit(models: map<string, ModelUsage>, todo: set<string>, m: string, b: string)
    requires todo <= models.Keys && m in todo
    ensures Somewhere(models - (todo - {m}), b) <==> Somewhere(models - todo, b) || b in models[m].byPurpose
  {
    var before, after := models - todo, models - (todo - {m});
    assert after == before[m := models[m]];
    if b in models[m].byPurpose {
      assert m in after;
    } else if n :| n in before && b in before[n].byPurpose {
      assert n in after;
    }
  }

  /** The sum of the costs of one category. */
  method CategoryCost(figures: map<string, Figures>, indexing: bool) returns (cost: real)
    ensures cost == SumMap(figures, CategoryView(Some(indexing)))
  {
    cost := 0.0;
    var todo := figures.Keys;
    assert figures - todo == map[];
    while todo != {}
      invariant todo <= figures.Keys
      invariant cost == SumMap(figures - todo, CategoryView(Some(indexing)))
    {
      var b :| b in todo;
      SumMapUpdate(figures - todo, CategoryView(Some(indexing)), b, figures[b]);
      assert figures - (todo - {b}) == (figures - todo)[b := figures[b]];
      if Indexing(b) == indexing {
        cost := cost + figures[b].cost;
      }
      todo := todo - {b};
    }
    assert figures - {} == figures;
  }

  lemma {:induction false} SomewhereCounts(rows: seq<Row<Tag>>, b: string)
    ensures Somewhere(Added(rows), b) <==> Count(rows, OfPurpose(b)) > 0
  {
    if Somewhere(Added(rows), b) {
      var m :| m in Added(rows) && b in Added(rows)[m].byPurpose;
      AddedSums(rows, m, b, Calls);
      SliceInModel(rows, m, b);
    } else {
      NowhereCounts(rows, b);
    }
  }

  lemma {:induction false} NowhereCounts(rows: seq<Row<Tag>>, b: string)
    ensures Count(rows, OfPurpose(b)) > 0 ==> Somewhere(Added(rows), b)
  {
    if rows != [] {
      var front, r := rows[..|rows| - 1], rows[|rows| - 1];
      NowhereCounts(front, b);
      if Bucket(r.key.purpose) == b {
        assert r.key.model in Added(rows);
      } else if Somewhere(Added(front), b) {
        var m :| m in Added(front) && b in Added(front)[m].byPurpose;
        assert m in Added(rows);
      }
    }
  }

  /** The roll-up over the models is the one over the calls. */
  lemma {:induction false} RollUpIsPurposes(rows: seq<Row<Tag>>, prices: map<string, Rate>, figures: map<string, Figures>)
    requires forall b :: b in figures <==> Somewhere(Added(rows), b)
    requires forall b, c :: Field(Figure(figures, b).usage, c) == SumMap(Added(rows), SliceView(b, c))
    requires forall b :: Figure(figures, b).cost == SumMap(Added(rows), SliceCostView(b, prices))
    ensures figures == Purposes(rows, prices)
  {
    var purposes := Purposes(rows, prices);
    forall b
      ensures b in figures <==> b in purposes
      ensures Figure(figures, b) == Figure(purposes, b)
    {
      SomewhereCounts(rows, b);
      forall c
        ensures Field(Figure(figures, b).usage, c) == Field(Figure(purposes, b).usage, c)
        ensures Figure(figures, b).cost == Figure(purposes, b).cost && (b in figures <==> b in purposes)
      {
        PurposesSum(rows, prices, b, c);
        ModelSums(rows, b, c, prices);
      }
      FieldsDecide(Figure(figures, b).usage, Figure(purposes, b).usage);
      assert Field(Figure(figures, b).usage, Calls) == Field(Figure(purposes, b).usage, Calls);
    }
    assert forall b :: b in figures ==> figures[b] == Figure(figures, b) == Figure(purposes, b) == purposes[b];
  }

  function OfOne(m: string, u: ModelUsage, prices: map<string, Rate>): ModelFigures {
    ModelFigures(Figures(u.total, Price(RateOf(prices, m), u.total)), u.byPurpose)
  }

  ghost predicate ModelRight(f: ModelFigures, m: string, rows: seq<Row<Tag>>, prices: map<string, Rate>) {
    && (forall c :: Field(f.own.usage, c) == Sum(rows, OfModel(m), Of(c)))
    && f.own.cost == Sum(rows, OfModel(m), PriceOf(prices))
    && (forall b :: b in f.byPurpose <==> Count(rows, OfSlice(m, b)) > 0)
    && (forall b, c :: Field(Slice(f.byPurpose, b), c) == Sum(rows, OfSlice(m, b), Of(c)))
  }

  /** A model's total costs what its calls cost, each priced by itself. */
  lemma {:induction false} ModelCost(rows: seq<Row<Tag>>, m: string, prices: map<string, Rate>)
    ensures Price(RateOf(prices, m), Model(Added(rows), m).total) == Sum(rows, OfModel(m), PriceOf(prices))
  {
    PriceAdds(RateOf(prices, m), NOTHING, NOTHING);
    if rows != [] {
      var front, r := rows[..|rows| - 1], rows[|rows| - 1];
      ModelCost(front, m, prices);
      PriceAdds(RateOf(prices, m), Model(Added(front), m).total, r.usage);
    }
  }

  /** The figures of each model are sums over its calls, and its breakdown has the purposes of its calls. */
  lemma {:induction false} OfOneRight(rows: seq<Row<Tag>>, m: string, prices: map<string, Rate>)
    ensures m in Added(rows) <==> Count(rows, OfModel(m)) > 0
    ensures ModelRight(OfOne(m, Model(Added(rows), m), prices), m, rows, prices)
  {
    AddedKeys(rows, m, "");
    ModelCost(rows, m, prices);
    forall c ensures Field(Model(Added(rows), m).total, c) == Sum(rows, OfModel(m), Of(c)) {
      AddedSums(rows, m, "", c);
    }
    forall b ensures b in Model(Added(rows), m).byPurpose <==> Count(rows, OfSlice(m, b)) > 0 {
      AddedKeys(rows, m, b);
    }
    forall b, c ensures Field(Slice(Model(Added(rows), m).byPurpose, b), c) == Sum(rows, OfSlice(m, b), Of(c)) {
      AddedSums(rows, m, b, c);
    }
  }

  /** Every figure is the sum of what the calls it is for amount to, each call priced by itself; the total cost is the
      cost of indexing and of querying; and there are figures for exactly the models and purposes that have calls. */
  ghost predicate Summarises(s: Summary, rows: seq<Row<Tag>>, prices: map<string, Rate>) {
    && (forall c :: Field(s.total, c) == Sum(rows, InCategory(None), Of(c)))
    && s.cost == Sum(rows, InCategory(None), PriceOf(prices)) == s.indexingCost + s.queryCost
    && s.indexingCost == Sum(rows, InCategory(Some(true)), PriceOf(prices))
    && s.queryCost == Sum(rows, InCategory(Some(false)), PriceOf(prices))
    && s.byPurpose == Purposes(rows, prices)
    && (forall m :: m in s.models <==> Count(rows, OfModel(m)) > 0)
    && (forall m :: m in s.models ==> ModelRight(s.models[m], m, rows, prices))
  }

  method Summarise(models: map<string, ModelUsage>, activeSessions: nat, prices: map<string, Rate>,
                   ghost rows: seq<Row<Tag>>)
    returns (s: Summary)
    requires models == Added(rows)
    ensures Summarises(s, rows, prices) && s.activeSessions == activeSessions
  {
    var total, cost := Totals(models, prices);
    var byPurpose := RollUp(models, prices);
    RollUpIsPurposes(rows, prices, byPurpose);
    var indexingCost := CategoryCost(byPurpose, true);
    var queryCost := CategoryCost(byPurpose, false);
    s := Summary(total, cost, indexingCost, queryCost, activeSessions,
                 map m | m in models :: OfOne(m, models[m], prices), byPurpose);
    forall c ensures Field(s.total, c) == Sum(rows, InCategory(None), Of(c)) {
      ModelSums(rows, "", c, prices);
    }
    forall m
      ensures m in s.models <==> Count(rows, OfModel(m)) > 0
      ensures m in s.models ==> ModelRight(s.models[m], m, rows, prices)
    {
      OfOneRight(rows, m, prices);
    }
    ModelSums(rows, "", Calls, prices);
    CategorySum(rows, prices, Some(true));
    CategorySum(rows, prices, Some(false));
    CategoriesPartition(rows, PriceOf(prices));
  }

  /** One recorded call in its model's counters. */
  method CountCall(was: ModelUsage, bucket: string, input: int, output: int, latency: real) returns (m: ModelUsage)
    ensures m == BumpModel(was, bucket, Usage(input, output, 1, latency))
  {
    m := was.(total := Usage(was.total.input + input, was.total.output + output, was.total.calls + 1,
                             was.total.latency + latency));
    if bucket !in m.byPurpose {
      m := m.(byPurpose := m.byPurpose[bucket := NOTHING]);
    }
    var pu := m.byPurpose[bucket];
    pu := Usage(pu.input + input, pu.output + output, pu.calls + 1, pu.latency + latency);
    m := m.(byPurpose := m.byPurpose[bucket := pu]);
  }

  class UsageTracker {
    var models: map<string, ModelUsage>
    var sessions: map<string, Usage>
    ghost var rows: seq<Row<Tag>>      // every call recorded, and every total seeded

    ghost predicate Valid()
      reads this
    {
      models == Added(rows)
    }

    constructor ()
      ensures Valid() && rows == [] && sessions == map[]
    {
      models, sessions, rows := map[], map[], [];
    }

    method Record(model: string, input: int, output: int, latency: real, session: string, purpose: Option<string>)
      requires Valid()
      modifies this
      ensures Valid() && rows == old(rows) + [Row(Tag(model, purpose), Usage(input, output, 1, latency))]
      ensures sessions == if session == "" then old(sessions)
                          else old(sessions)[session := Slice(old(sessions), session).Plus(Usage(input, output, 1, 0.0))]
    {
      ghost var row := Row(Tag(model, purpose), Usage(input, output, 1, latency));
      AddedSnoc(rows, row);
      RecordInModel(model, Bucket(purpose), input, output, latency);
      if session != "" {
        var sess := Slice(sessions, session);
        sessions := sessions[session := sess.Plus(Usage(input, output, 1, 0.0))];
      }
      rows := rows + [row];
    }

    method RecordInModel(model: string, bucket: string, input: int, output: int, latency: real)
      modifies this`models
      ensures models == Bump(old(models), model, bucket, Usage(input, output, 1, latency))
    {
      if model !in models {
        models := models[model := UNUSED];
      }
      var m := CountCall(models[model], bucket, input, output, latency);
      models := models[model := m];
    }

    method SeedHistorical(model: string, bucket: string, u: Usage)
      modifies this`models
      ensures models == Bump(old(models), model, bucket, u)
    {
      if model !in models {
        models := models[model := UNUSED];
      }
      var m := models[model];
      var pu := Slice(m.byPurpose, bucket).Plus(u);
      models := models[model := ModelUsage(m.total.Plus(u), m.byPurpose[bucket := pu])];
    }

    /** All figures of the summary, as sums over the calls. */
    method GetSummary(prices: map<string, Rate>) returns (s: Summary)
      requires Valid()
      ensures Summarises(s, rows, prices) && s.activeSessions == |sessions|
    {
      s := Summarise(models, |sessions|, prices, rows);
    }
  }

  lemma {:induction false} AddedNext(was: seq<Row<Tag>>, groups: seq<Row<Tag>>, i: nat)
    requires i < |groups|
    ensures Added(was + groups[..i + 1])
         == Bump(Added(was + groups[..i]), groups[i].key.model, Bucket(groups[i].key.purpose), groups[i].usage)
  {
    AddedSnoc(was + groups[..i], groups[i]);
    assert was + groups[..i + 1] == was + groups[..i] + [groups[i]];
  }

  /** Seeding at startup from the rows of the roll-up query. */
  method SeedTracker(isOpen: bool, groups: seq<Row<Tag>>, tracker: UsageTracker)
    requires tracker.Valid()
    modifies tracker`models, tracker`rows
    ensures tracker.Valid() && tracker.rows == old(tracker.rows) + if isOpen then groups else []
  {
    if !isOpen {
      return;
    }
    ghost var was := tracker.rows;
    assert was + groups[..0] == was;
    for i := 0 to |groups|
      invariant tracker.models == Added(was + groups[..i])
    {
      AddedNext(was, groups, i);
      tracker.SeedHistorical(groups[i].key.model, Bucket(groups[i].key.purpose), groups[i].usage);
    }
    assert groups[..|groups|] == groups;
    tracker.rows := was + groups;
  }
}
