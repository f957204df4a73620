/** Cloud model bundles (opsrag/model_bundles.py, lines 35-248): fill what the operator left unset. */
module ModelBundles {

  import opened Options

  datatype Purpose = Reason | ToolCall | Embed | Rerank | Summarize | Extract

  datatype Spec = Spec(provider: Option<string>, model: Option<string>, effort: Option<string>)

  datatype Slot = Slot(provider: string, model: string)

  /** A missing key is an unset purpose. */
  type Models = map<Purpose, Spec>

  /** What the bundles offer, by cloud provider. */
  datatype Tables = Tables(bundles: map<string, Models>, dimensions: map<string, int>, pro: map<string, string>)

  datatype Values = Values(cloudProvider: Option<string>, models: Option<Models>, llm: Slot, embedding: Slot,
                           dimension: Option<int>, reranker: Slot, proModel: Option<string>)

  const DEFAULT_LLM := Slot("anthropic", "claude-sonnet-4-20250514")
  const DEFAULT_EMBED := Slot("openai", "text-embedding-3-large")
  const DEFAULT_RERANK := Slot("fastembed", "rerank-v3.5")

  const PURPOSES := [Reason, ToolCall, Embed, Rerank, Summarize, Extract]

  predicate LlmPurpose(p: Purpose) { !p.Embed? && !p.Rerank? }

  function SpecOf(provider: string, model: string): Spec { Spec(Some(provider), Some(model), None) }

  const AWS: Models := map[
    Reason := Spec(Some("bedrock"), Some("us.anthropic.claude-sonnet-4-6"), Some("medium")),
    ToolCall := SpecOf("bedrock", "us.anthropic.claude-haiku-4-5-20251001-v1:0"),
    Summarize := SpecOf("bedrock", "us.anthropic.claude-haiku-4-5-20251001-v1:0"),
    Extract := SpecOf("bedrock", "us.anthropic.claude-haiku-4-5-20251001-v1:0"),
    Embed := SpecOf("bedrock", "us.cohere.embed-v4:0"),
    Rerank := SpecOf("bedrock", "cohere.rerank-v3-5:0")]

  const GCP: Models := map[
    Reason := Spec(Some("vertex"), Some("gemini-2.5-flash"), Some("medium")),
    ToolCall := SpecOf("vertex", "gemini-2.5-flash"),
    Summarize := SpecOf("vertex", "gemini-2.5-flash"),
    Extract := SpecOf("vertex", "gemini-2.5-flash"),
    Embed := SpecOf("vertex", "gemini-embedding-001"),
    Rerank := SpecOf("vertex", "semantic-ranker-default-004")]

  const SHIPPED := Tables(map["aws" := AWS, "gcp" := GCP], map["aws" := 1536, "gcp" := 3072],
                          map["aws" := "us.anthropic.claude-sonnet-4-6", "gcp" := "gemini-2.5-pro"])

  function Get<K, V>(m: map<K, V>, k: K): Option<V> { if k in m then Some(m[k]) else None }

  // ----- what resolution does -----

  /** An unset purpose takes the bundle's spec; a set one takes the fields it lacks. */
  function Filled(existing: Option<Spec>, spec: Spec): Spec {
    if existing.None? then spec
    else var e := existing.value; Spec(e.provider.Or(spec.provider), e.model.Or(spec.model), e.effort.Or(spec.effort))
  }

  /** The operator pinned the llm slot to another provider than the bundle has for this purpose. */
  predicate SplitBrain(llm: Slot, p: Purpose, spec: Spec) {
    LlmPurpose(p) && llm != DEFAULT_LLM && spec.provider.Some? && spec.provider.value != llm.provider
  }

  function FilledModels(bundle: Models, models: Models, llm: Slot): Models {
    map p | p in models.Keys + bundle.Keys && (p in models || !SplitBrain(llm, p, bundle[p]))
      :: if p in bundle && !SplitBrain(llm, p, bundle[p]) then Filled(Get(models, p), bundle[p]) else models[p]
  }

  function FilledSlot(slot: Slot, default: Slot, spec: Option<Spec>): Slot {
    if spec.None? || slot != default then slot
    else Slot(if spec.value.provider.Some? then spec.value.provider.value else slot.provider,
              if spec.value.model.Some? then spec.value.model.value else slot.model)
  }

  function ModelsOf(v: Values): Models { if v.models.Some? then v.models.value else map[] }

  function Resolved(t: Tables, v: Values): Values {
    if v.cloudProvider.None? || v.cloudProvider.value !in t.bundles then v
    else
      var cloud := v.cloudProvider.value;
      var bundle := t.bundles[cloud];
      Values(v.cloudProvider,
             Some(FilledModels(bundle, ModelsOf(v), v.llm)),
             FilledSlot(v.llm, DEFAULT_LLM, Get(bundle, Reason)),
             FilledSlot(v.embedding, DEFAULT_EMBED, Get(bundle, Embed)),
             v.dimension.Or(Get(t.dimensions, cloud)),
             FilledSlot(v.reranker, DEFAULT_RERANK, Get(bundle, Rerank)),
             v.proModel.Or(Get(t.pro, cloud)))
  }

  // ----- what it promises -----

  /** Resolving again changes nothing, for any tables: what the changed llm slot could now block is filled already. */
  lemma Idempotent(t: Tables, v: Values)
    ensures Resolved(t, Resolved(t, v)) == Resolved(t, v)
  {
    if v.cloudProvider.Some? && v.cloudProvider.value in t.bundles {
      var bundle := t.bundles[v.cloudProvider.value];
      ModelsIdempotent(bundle, ModelsOf(v), v.llm);
    }
  }

  lemma ModelsIdempotent(bundle: Models, models: Models, llm: Slot)
    ensures var once := FilledModels(bundle, models, llm);
            FilledModels(bundle, once, FilledSlot(llm, DEFAULT_LLM, Get(bundle, Reason))) == once
  {
    var once, slot := FilledModels(bundle, models, llm), FilledSlot(llm, DEFAULT_LLM, Get(bundle, Reason));
    var twice := FilledModels(bundle, once, slot);
    forall p ensures p in twice <==> p in once {
      assert p in bundle && llm == DEFAULT_LLM ==> p in once;
    }
    forall p | p in once ensures twice[p] == once[p] {
      assert p in bundle && SplitBrain(llm, p, bundle[p]) ==> slot == llm;
    }
  }

  /** What the operator set is kept: a slot away from its default, a set field of a purpose, a dimension, a pro model. */
  lemma KeepsWhatIsSet(t: Tables, v: Values, p: Purpose)
    ensures var r := Resolved(t, v);
            && (v.llm != DEFAULT_LLM ==> r.llm == v.llm)
            && (v.embedding != DEFAULT_EMBED ==> r.embedding == v.embedding)
            && (v.reranker != DEFAULT_RERANK ==> r.reranker == v.reranker)
            && (v.dimension.Some? ==> r.dimension == v.dimension)
            && (v.proModel.Some? ==> r.proModel == v.proModel)
            && (v.models.Some? && p in v.models.value ==>
                  && r.models.Some? && p in r.models.value
                  && Extends(r.models.value[p], v.models.value[p]))
  {
  }

  predicate Extends(after: Spec, before: Spec) {
    && (before.provider.Some? ==> after.provider == before.provider)
    && (before.model.Some? ==> after.model == before.model)
    && (before.effort.Some? ==> after.effort == before.effort)
  }

  /** The provider a purpose names, if any. */
  function ProviderOf(models: Models, p: Purpose): Option<string> {
    if p in models then models[p].provider else None
  }

  /** Every LLM purpose that names a provider names that of the llm slot. */
  predicate Together(v: Values) { forall p :: LlmPurpose(p) ==> OnProvider(ModelsOf(v), p, v.llm.provider) }

  predicate OnProvider(models: Models, p: Purpose, provider: string) {
    ProviderOf(models, p).Some? ==> ProviderOf(models, p).value == provider
  }

  /** After resolution the LLM purposes are on the provider of the llm slot exactly if those are that the operator set
      and, unless the operator moved the slot, those of the bundle that the operator left to it. */
  lemma NoSplitBrain(t: Tables, v: Values)
    requires v.cloudProvider.Some? && v.cloudProvider.value in t.bundles
    ensures var bundle, models := t.bundles[v.cloudProvider.value], ModelsOf(v);
            var provider := FilledSlot(v.llm, DEFAULT_LLM, Get(bundle, Reason)).provider;
            Together(Resolved(t, v)) <==>
              && (forall p :: LlmPurpose(p) ==> OnProvider(models, p, provider))
              && (v.llm == DEFAULT_LLM ==>
                    forall p :: LlmPurpose(p) && ProviderOf(models, p).None? ==> OnProvider(bundle, p, provider))
  {
    var bundle, models, r := t.bundles[v.cloudProvider.value], ModelsOf(v), Resolved(t, v);
    forall p | LlmPurpose(p)
      ensures OnProvider(ModelsOf(r), p, r.llm.provider) <==>
                && OnProvider(models, p, r.llm.provider)
                && (v.llm == DEFAULT_LLM && ProviderOf(models, p).None? ==> OnProvider(bundle, p, r.llm.provider))
    {
      ProviderFilled(bundle, models, v.llm, p);
    }
  }

  /** The operator's provider if there is one, else the bundle's unless the guard keeps it out. */
  lemma ProviderFilled(bundle: Models, models: Models, llm: Slot, p: Purpose)
    ensures ProviderOf(FilledModels(bundle, models, llm), p)
         == if ProviderOf(models, p).Some? then ProviderOf(models, p)
            else if p in bundle && SplitBrain(llm, p, bundle[p]) then None
            else ProviderOf(bundle, p)
  {
  }

  /** The shipped bundles keep all on one provider where the operator sets none. */
  lemma ShippedTogether(v: Values)
    requires forall p :: LlmPurpose(p) ==> ProviderOf(ModelsOf(v), p).None?
    ensures Together(Resolved(SHIPPED, v))
  {
    if v.cloudProvider.Some? && v.cloudProvider.value in SHIPPED.bundles {
      var bundle := SHIPPED.bundles[v.cloudProvider.value];
      assert bundle == AWS || bundle == GCP;
      NoSplitBrain(SHIPPED, v);
    }
  }

  /** The bundle may fill this purpose: it has a spec for it, and the operator has not moved the llm slot to another
      provider than that has, which does not matter to embedding and reranking. */
  predicate MayFill(bundle: Models, llm: Slot, p: Purpose) {
    && p in bundle
    && (p in {Embed, Rerank} || llm == DEFAULT_LLM
        || bundle[p].provider.None? || bundle[p].provider.value == llm.provider)
  }

  /** What is unset is taken from the bundle, field by field, where the bundle may fill it, and nothing else changes. */
  lemma TakesWhatIsUnset(t: Tables, v: Values, p: Purpose)
    requires v.cloudProvider.Some? && v.cloudProvider.value in t.bundles
    ensures var bundle, was, now := t.bundles[v.cloudProvider.value], ModelsOf(v), ModelsOf(Resolved(t, v));
            && (p in now <==> p in was || MayFill(bundle, v.llm, p))
            && (p in now && !MayFill(bundle, v.llm, p) ==> now[p] == was[p])
            && (p in now && p !in was ==> now[p] == bundle[p])
            && (p in was && MayFill(bundle, v.llm, p) ==>
                  && now[p].provider == (if was[p].provider == None then bundle[p].provider else was[p].provider)
                  && now[p].model == (if was[p].model == None then bundle[p].model else was[p].model)
                  && now[p].effort == (if was[p].effort == None then bundle[p].effort else was[p].effort))
  {
  }

  /** The slot is at its default and the bundle names this model for it, or the slot stays as it is. */
  predicate TakesSlot(was: Slot, now: Slot, default: Slot, bundle: Models, p: Purpose) {
    if was == default && p in bundle then
      && (bundle[p].provider.Some? ==> now.provider == bundle[p].provider.value)
      && (bundle[p].provider.None? ==> now.provider == was.provider)
      && (bundle[p].model.Some? ==> now.model == bundle[p].model.value)
      && (bundle[p].model.None? ==> now.model == was.model)
    else now == was
  }

  /** The llm, embedding and reranker slots take the bundle's reason, embed and rerank specs if at their defaults; a
      dimension and a pro model are taken if unset; and without a known cloud provider nothing changes. */
  lemma TakesSlots(t: Tables, v: Values)
    ensures var r := Resolved(t, v);
            if v.cloudProvider.Some? && v.cloudProvider.value in t.bundles then
              var cloud := v.cloudProvider.value;
              && r.cloudProvider == v.cloudProvider
              && TakesSlot(v.llm, r.llm, Slot("anthropic", "claude-sonnet-4-20250514"), t.bundles[cloud], Reason)
              && TakesSlot(v.embedding, r.embedding, Slot("openai", "text-embedding-3-large"), t.bundles[cloud], Embed)
              && TakesSlot(v.reranker, r.reranker, Slot("fastembed", "rerank-v3.5"), t.bundles[cloud], Rerank)
              && (v.dimension == None ==> r.dimension == if cloud in t.dimensions then Some(t.dimensions[cloud]) else None)
              && (v.proModel == None ==> r.proModel == if cloud in t.pro then Some(t.pro[cloud]) else None)
            else r == v
  {
  }

  /** With nothing set, the llm slot and its purposes take the bundle whole. */
  lemma FillsAll(t: Tables, cloud: string)
    requires cloud in t.bundles
    ensures var r := Resolved(t, Values(Some(cloud), None, DEFAULT_LLM, DEFAULT_EMBED, None, DEFAULT_RERANK, None));
            && r.models == Some(t.bundles[cloud])
            && r.dimension == Get(t.dimensions, cloud) && r.proModel == Get(t.pro, cloud)
  {
    var none: Models := map[];
    assert FilledModels(t.bundles[cloud], none, DEFAULT_LLM) == t.bundles[cloud];
  }

  // ----- in place -----

  class Settings {
    var cloudProvider: Option<string>
    var models: Option<Models>
    var llm: Slot
    var embedding: Slot
    var dimension: Option<int>
    var reranker: Slot
    var proModel: Option<string>

    function Value(): Values
      reads this
    {
      Values(cloudProvider, models, llm, embedding, dimension, reranker, proModel)
    }

    constructor (v: Values)
      ensures Value() == v
    {
      cloudProvider, models, llm, embedding, dimension, reranker, proModel :=
        v.cloudProvider, v.models, v.llm, v.embedding, v.dimension, v.reranker, v.proModel;
    }

    /** `resolve_cloud_bundle`: the purposes first, while the llm slot is still the operator's, then the slots. */
    method ResolveCloudBundle(t: Tables)
      modifies this
      ensures Value() == Resolved(t, old(Value()))
    {
      if cloudProvider.None? || cloudProvider.value !in t.bundles {
        return;
      }
      var cloud := cloudProvider.value;
      var bundle := t.bundles[cloud];
      if models.None? {
        models := Some(map[]);
      }
      var filled := FillPurposes(bundle, models.value, llm);
      models := Some(filled);
      llm := FillSlot(llm, DEFAULT_LLM, Get(bundle, Reason));
      embedding := FillSlot(embedding, DEFAULT_EMBED, Get(bundle, Embed));
      if dimension.None? {
        dimension := Get(t.dimensions, cloud);
      }
      reranker := FillSlot(reranker, DEFAULT_RERANK, Get(bundle, Rerank));
      if proModel.None? {
        proModel := Get(t.pro, cloud);
      }
    }
  }

  /** The loop over the purposes. */
  method FillPurposes(bundle: Models, models: Models, llm: Slot) returns (filled: Models)
    ensures filled == FilledModels(bundle, models, llm)
  {
    filled := models;
    var overridden := llm != DEFAULT_LLM;
    for i := 0 to |PURPOSES|
      invariant forall p :: Order(p) >= i ==> Get(filled, p) == Get(models, p)
      invariant forall p :: Order(p) < i ==> Get(filled, p) == FilledAt(bundle, models, llm, p)
    {
      var p := PURPOSES[i];
      InOrder(i);
      if p in bundle {
        var spec := bundle[p];
        if !(LlmPurpose(p) && overridden && spec.provider.Some? && spec.provider.value != llm.provider) {
          filled := filled[p := Filled(Get(filled, p), spec)];
        }
      }
    }
    forall p ensures Get(filled, p) == Get(FilledModels(bundle, models, llm), p) {
      FilledIs(bundle, models, llm, p);
    }
    SameEntries(filled, FilledModels(bundle, models, llm));
  }

  function FilledAt(bundle: Models, models: Models, llm: Slot, p: Purpose): Option<Spec> {
    if p in bundle && !SplitBrain(llm, p, bundle[p]) then Some(Filled(Get(models, p), bundle[p])) else Get(models, p)
  }

  lemma FilledIs(bundle: Models, models: Models, llm: Slot, p: Purpose)
    ensures Get(FilledModels(bundle, models, llm), p) == FilledAt(bundle, models, llm, p)
  {
  }

  lemma SameEntries(a: Models, b: Models)
    requires forall p :: Get(a, p) == Get(b, p)
    ensures a == b
  {
    forall p | p in a ensures p in b && a[p] == b[p] {
      assert Get(a, p) == Get(b, p);
    }
    forall p | p in b ensures p in a {
      assert Get(a, p) == Get(b, p);
    }
  }

  function Order(p: Purpose): (i: nat)
    ensures i < |PURPOSES|
  {
    match p
    case Reason => 0
    case ToolCall => 1
    case Embed => 2
    case Rerank => 3
    case Summarize => 4
    case Extract => 5
  }

  lemma InOrder(i: nat)
    requires i < |PURPOSES|
    ensures forall p :: Order(p) == i <==> p == PURPOSES[i]
  {
  }

  method FillSlot(slot: Slot, default: Slot, spec: Option<Spec>) returns (filled: Slot)
    ensures filled == FilledSlot(slot, default, spec)
  {
    filled := slot;
    if spec.Some? && slot == default {
      if spec.value.provider.Some? {
        filled := filled.(provider := spec.value.provider.value);
      }
      if spec.value.model.Some? {
        filled := filled.(model := spec.value.model.value);
      }
    }
  }
}
