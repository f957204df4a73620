/** The router from purposes to model clients (opsrag/model_router.py, lines 32-162). */
module PurposeRouter {

  import opened ModelBundles
  import opened Options

  type Target = (string, string)

  /** A client is an object: prompt caches hang on its identity. */
  class Client {
    const target: Target

    constructor (target: Target)
      ensures this.target == target
    {
      this.target := target;
    }
  }

  /** The providers `_build_llm` knows; it raises NotImplementedError on any other. */
  predicate Buildable(provider: string) { provider in {"anthropic", "openai", "vertex", "bedrock"} }

  predicate Cheap(p: Purpose) { p.ToolCall? || p.Summarize? || p.Extract? }

  /** A purpose's own spec, or for the cheap ones that of tool_call. */
  function SpecFor(models: Option<Models>, p: Purpose): Option<Spec> {
    if models.None? then None
    else if p in models.value || !Cheap(p) then Get(models.value, p)
    else Get(models.value, ToolCall)
  }

  /** Where a purpose goes; None is the classic llm slot. */
  function ResolveTarget(models: Option<Models>, p: Purpose): Option<Target> {
    var spec := SpecFor(models, p);
    if spec.None? || spec.value.provider.None? || spec.value.model.None? then None
    else Some((spec.value.provider.value, spec.value.model.value))
  }

  /** A purpose goes where its own spec says, if that names a provider and a model; one of the cheap ones without a spec
      goes where tool_call does; and otherwise to the classic slot. */
  lemma TargetExactly(models: Option<Models>, p: Purpose)
    ensures var own := models.Some? && p in models.value;
            var inherits := !own && p in {ToolCall, Summarize, Extract} && models.Some? && ToolCall in models.value;
            ResolveTarget(models, p) ==
              if own && models.value[p].provider.Some? && models.value[p].model.Some?
              then Some((models.value[p].provider.value, models.value[p].model.value))
              else if inherits && models.value[ToolCall].provider.Some? && models.value[ToolCall].model.Some?
              then Some((models.value[ToolCall].provider.value, models.value[ToolCall].model.value))
              else None
  {
  }

  /** With a shipped bundle and nothing set, reasoning goes to the large model and the cheap purposes to the small one. */
  lemma ShippedRoutes(v: Values)
    requires v.models == None && v.llm == DEFAULT_LLM && v.cloudProvider in {Some("aws"), Some("gcp")}
    ensures var r := Resolved(SHIPPED, v);
            if v.cloudProvider == Some("aws") then
              && r.llm == Slot("bedrock", "us.anthropic.claude-sonnet-4-6")
              && ResolveTarget(r.models, Reason) == Some((r.llm.provider, r.llm.model))
              && forall p :: p in {ToolCall, Summarize, Extract} ==>
                   ResolveTarget(r.models, p) == Some(("bedrock", "us.anthropic.claude-haiku-4-5-20251001-v1:0"))
            else
              && r.llm == Slot("vertex", "gemini-2.5-flash")
              && forall p :: p in {Reason, ToolCall, Summarize, Extract} ==>
                   ResolveTarget(r.models, p) == Some((r.llm.provider, r.llm.model))
  {
    assert SHIPPED.bundles["aws"] == AWS && SHIPPED.bundles["gcp"] == GCP;
    forall p | p in {Reason, ToolCall, Summarize, Extract}
      ensures var models := Resolved(SHIPPED, v).models.value;
              p in models && models[p] == SHIPPED.bundles[v.cloudProvider.value][p]
    {
      TakesWhatIsUnset(SHIPPED, v, p);
    }
  }

  /** If the LLM purposes are on the provider of the llm slot, so is every target, inherited ones included. */
  lemma TargetsTogether(v: Values, p: Purpose)
    requires Together(v) && LlmPurpose(p)
    ensures var target := ResolveTarget(v.models, p); target.Some? ==> target.value.0 == v.llm.provider
  {
    assert OnProvider(ModelsOf(v), p, v.llm.provider) && OnProvider(ModelsOf(v), ToolCall, v.llm.provider);
  }

  /** With a shipped bundle, and no provider set for a purpose, every purpose is built from the provider that the llm
      slot configures. */
  lemma ShippedTargets(v: Values, p: Purpose)
    requires LlmPurpose(p) && forall q :: LlmPurpose(q) ==> ProviderOf(ModelsOf(v), q).None?
    ensures var r := Resolved(SHIPPED, v);
            var target := ResolveTarget(r.models, p);
            target.Some? ==> target.value.0 == r.llm.provider
  {
    ShippedTogether(v);
    TargetsTogether(Resolved(SHIPPED, v), p);
  }

  class PurposeRouter {
    const llm: Target
    const defaultLlm: Client
    var clients: map<Target, Client>
    var resolved: map<Purpose, Option<Target>>

    ghost predicate Valid()
      reads this
    {
      && llm in clients && clients[llm] == defaultLlm
      && (forall t :: t in clients && t != llm ==> clients[t].target == t && Buildable(t.0))
    }

    /** The client of a purpose; None if it has none yet. */
    function ClientOf(p: Purpose): Option<Client>
      reads this
    {
      if p !in resolved || resolved[p].None? then Some(defaultLlm) else Get(clients, resolved[p].value)
    }

    constructor (v: Values, defaultLlm: Client)
      ensures Valid() && this.defaultLlm == defaultLlm && llm == (v.llm.provider, v.llm.model)
      ensures clients == map[llm := defaultLlm]
      ensures resolved == map p: Purpose | p in {Reason, ToolCall, Summarize, Extract} :: ResolveTarget(v.models, p)
    {
      this.defaultLlm, llm := defaultLlm, (v.llm.provider, v.llm.model);
      clients := map[(v.llm.provider, v.llm.model) := defaultLlm];
      var r: map<Purpose, Option<Target>> := map[];
      var purposes := [Reason, ToolCall, Summarize, Extract];
      for i := 0 to |purposes|
        invariant r.Keys == set p | p in purposes[..i]
        invariant forall p :: p in r ==> r[p] == ResolveTarget(v.models, p)
      {
        assert purposes[..i + 1] == purposes[..i] + [purposes[i]];
        r := r[purposes[i] := ResolveTarget(v.models, purposes[i])];
      }
      assert purposes[..|purposes|] == purposes;
      resolved := r;
    }

    /** The memoised choice.  Clients are only ever added, so what was picked once is picked again. */
    method Pick(p: Purpose) returns (r: Option<Client>)
      requires Valid()
      modifies this`clients
      ensures Valid() && (forall t :: t in old(clients) ==> t in clients && clients[t] == old(clients)[t])
      ensures r == ClientOf(p)
      ensures r.None? <==> old(ClientOf(p)).None? && !Buildable(resolved[p].value.0)
      ensures old(ClientOf(p)).Some? ==> clients == old(clients)
      ensures old(ClientOf(p)).None? && r.Some? ==> fresh(r.value) && r.value.target == resolved[p].value
    {
      if p !in resolved || resolved[p].None? {
        return Some(defaultLlm);
      }
      var target := resolved[p].value;
      if target in clients {
        return Some(clients[target]);
      }
      if !Buildable(target.0) {
        return None;
      }
      var client := new Client(target);
      clients := clients[target := client];
      return Some(client);
    }

    /** Any sequence of picks: one object per target, the default client where nothing resolves, and never a client for
        another target than the purpose's. */
    method PickAll(ps: seq<Purpose>) returns (rs: seq<Option<Client>>)
      requires Valid()
      modifies this`clients
      ensures Valid() && |rs| == |ps|
      ensures forall i :: 0 <= i < |ps| ==> rs[i] == ClientOf(ps[i])
      ensures forall i, j :: 0 <= i < |ps| && 0 <= j < |ps| && Route(ps[i]) == Route(ps[j]) ==> rs[i] == rs[j]
      ensures forall i :: 0 <= i < |ps| && Route(ps[i]) == llm ==> rs[i] == Some(defaultLlm)
      ensures forall i :: 0 <= i < |ps| && Route(ps[i]) != llm && rs[i].Some? ==> rs[i].value.target == Route(ps[i])
      ensures forall i :: 0 <= i < |ps| && rs[i].None? ==> !Buildable(Route(ps[i]).0)
    {
      rs := [];
      for k := 0 to |ps|
        invariant Valid() && |rs| == k
        invariant forall i :: 0 <= i < k ==> rs[i] == ClientOf(ps[i])
        invariant forall i :: 0 <= i < k && rs[i].None? ==> !Buildable(Route(ps[i]).0)
      {
        var r := Pick(ps[k]);
        rs := rs + [r];
      }
    }

    /** Where a purpose goes, the classic slot included. */
    function Route(p: Purpose): Target
      reads this`resolved
    {
      if p !in resolved || resolved[p].None? then llm else resolved[p].value
    }
  }

  /** Without a client to start from the router builds its own from the llm slot, and None stands for the exception
      where that slot's provider is not available. */
  method MakeRouter(v: Values, given: Option<Client>) returns (r: Option<PurposeRouter>)
    ensures r.None? <==> given.None? && !Buildable(v.llm.provider)
    ensures r.Some? ==> fresh(r.value) && r.value.Valid() && r.value.llm == (v.llm.provider, v.llm.model)
    ensures r.Some? ==> r.value.clients == map[r.value.llm := r.value.defaultLlm]
    ensures r.Some? && given.Some? ==> r.value.defaultLlm == given.value
    ensures r.Some? && given.None? ==>
              fresh(r.value.defaultLlm) && r.value.defaultLlm.target == (v.llm.provider, v.llm.model)
  {
    var client: Client;
    if given.Some? {
      client := given.value;
    } else if Buildable(v.llm.provider) {
      client := new Client((v.llm.provider, v.llm.model));
    } else {
      return None;
    }
    var router := new PurposeRouter(v, client);
    return Some(router);
  }
}
