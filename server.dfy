/**
 * main.py: the HTTP endpoints around the router. `chat` settles on a model
 * (forced or routed), calls it and prices the answer, turning any exception
 * into a 500; `/`, `/models` and `/status` report on the configuration.
 * The web framework, request validation and the clock are not modelled:
 * a request arrives parsed and the elapsed time is a parameter.
 */
module Server {
  import opened Wrappers
  import opened Text
  import opened Config
  import opened Adapters
  import opened Router
  import opened RouterProperties

  // ---------------------------------------------------------------------
  // POST /chat
  // ---------------------------------------------------------------------

  datatype ChatRequest = ChatRequest(
    message: string,
    userId: Option<string>,
    maxTokens: int,
    temperature: real,
    forceModel: Option<string>)

  datatype ChatResponse = ChatResponse(
    response: string,
    modelUsed: string,
    reasoning: string,
    costEstimate: real,
    responseTime: real,
    tokensUsed: int)

  /** The body sent back, or the HTTPException raised. */
  datatype ChatResult = Answered(body: ChatResponse) | Failed(statusCode: int, detail: string)

  /** `if request.force_model:` holds for a set, non-empty name. */
  predicate Forced(request: ChatRequest) {
    request.forceModel.Some? && request.forceModel.value != ""
  }

  function ForcedReasoning(model: string): string {
    "Modelo for\U{E7}ado pelo usu\U{E1}rio: " + model
  }

  /** The model and reasoning `chat` settles on: the forced model, or the router's choice. */
  function Selection(router: LLMRouter, request: ChatRequest): (d: Decision)
    ensures Forced(request) ==> d.model == request.forceModel.value
  {
    if Forced(request) then Decision(request.forceModel.value, ForcedReasoning(request.forceModel.value))
    else router.RouteRequest(request.message)
  }

  function InternalError(message: string): ChatResult {
    Failed(500, "Erro interno: " + message)
  }

  /** `chat`; `elapsed` is what the clock measures around the call. */
  method Chat(router: LLMRouter, request: ChatRequest, env: Environment, transport: Transport, elapsed: real)
    returns (result: ChatResult)
    requires router.Valid()
    modifies router
    ensures router.Valid()
    ensures var d := Selection(router, request);
      Lookup(router.config.models, d.model).None? ==>
        result == InternalError(NotConfiguredMessage(d.model)) && router.stats == old(router.stats)
    ensures var d := Selection(router, request);
      var entry := Lookup(router.config.models, d.model);
      entry.Some? ==>
        var reply := ModelReply(entry.value.provider, d.model, request.message, request.maxTokens,
                                request.temperature, env, transport);
        && result == Answered(ChatResponse(reply.text, d.model, d.reasoning,
                                           router.CalculateCost(d.model, reply.tokens), elapsed, reply.tokens))
        && router.stats == Record(old(router.stats), d.model)
  {
    var selected, reasoning;
    if Forced(request) {
      selected := request.forceModel.value;
      reasoning := ForcedReasoning(selected);
    } else {
      var decision := router.RouteRequest(request.message);
      selected, reasoning := decision.model, decision.reasoning;
    }
    var reply := router.CallModel(selected, request.message, request.maxTokens, request.temperature, env, transport);
    match reply
    case Err(e) =>
      result := InternalError(e);
    case Ok(completion) =>
      var cost := router.CalculateCost(selected, completion.tokens);
      result := Answered(ChatResponse(completion.text, selected, reasoning, cost, elapsed, completion.tokens));
  }

  /**
   * Without a forced model, `chat` fails with a 500 exactly when no provider
   * is configured: the router's "error" is not a catalog model.
   */
  lemma RoutedModelIsCallable(router: LLMRouter, request: ChatRequest)
    requires router.config.Valid()
    requires !Forced(request)
    ensures Lookup(router.config.models, Selection(router, request).model).None?
            <==> router.config.availableProviders == []
  {
    RouteSelectsAvailableModel(router, request.message);
    ErrorIsNotAModel();
    var d := Selection(router, request);
    if router.config.availableProviders != [] {
      var available := router.config.AvailableModels();
      var j :| 0 <= j < |available| && Names(available)[j] == d.model;
      assert available[j] in available;
      assert available[j] in Catalog();
      assert d.model in Names(Catalog());
    }
  }

  /** A forced model outside the catalog fails before any provider is called. */
  lemma ForcedUnknownModelFails(router: LLMRouter, request: ChatRequest)
    requires router.config.Valid()
    requires Forced(request) && request.forceModel.value !in Names(Catalog())
    ensures Selection(router, request) == Decision(request.forceModel.value, ForcedReasoning(request.forceModel.value))
    ensures Lookup(router.config.models, Selection(router, request).model).None?
  {
  }

  // ---------------------------------------------------------------------
  // GET /models
  // ---------------------------------------------------------------------

  /** One entry of `models_with_status`: the descriptor plus availability. */
  datatype ModelStatus = ModelStatus(name: string, config: ModelConfig, available: bool, status: string)

  datatype ModelsSummary = ModelsSummary(
    total: nat,
    configured: nat,
    missingKeys: seq<string>,
    availableProviders: seq<Provider>)

  datatype ModelsListing = ModelsListing(models: seq<ModelStatus>, summary: ModelsSummary)

  function StatusLabel(available: bool): string {
    if available then "\U{2705} Configurado" else "\U{274C} Chave de API necess\U{E1}ria"
  }

  /** `[model for model in models.keys() if model not in available]`. */
  function MissingNames(entries: seq<ModelEntry>, available: seq<string>): (missing: seq<string>)
    ensures forall m {:trigger m in missing} :: m in missing <==> m in Names(entries) && m !in available
  {
    if entries == [] then []
    else if entries[0].name !in available then [entries[0].name] + MissingNames(entries[1..], available)
    else MissingNames(entries[1..], available)
  }

  /** One model's entry: its descriptor, whether it is usable, and the label saying so. */
  function StatusOf(entry: ModelEntry, available: seq<string>): (r: ModelStatus)
    ensures r.name == entry.name && r.config == entry.config
    ensures r.available <==> entry.name in available
    ensures r.status == StatusLabel(r.available)
  {
    var isAvailable := entry.name in available;
    ModelStatus(entry.name, entry.config, isAvailable, StatusLabel(isAvailable))
  }

  /** The missing models are listed in catalog order. */
  lemma {:induction false} MissingKeepsOrder(entries: seq<ModelEntry>, available: seq<string>)
    ensures IsSubsequence(MissingNames(entries, available), Names(entries))
  {
    if entries != [] {
      MissingKeepsOrder(entries[1..], available);
      assert Names(entries)[1..] == Names(entries[1..]);
    }
  }

  /** `get_models`. */
  method GetModels(config: RouterConfig) returns (listing: ModelsListing)
    ensures |listing.models| == |config.models|
    ensures forall i :: 0 <= i < |listing.models| ==>
      listing.models[i] == StatusOf(config.models[i], Names(config.AvailableModels()))
    ensures listing.summary == ModelsSummary(|config.models|, |config.AvailableModels()|,
      MissingNames(config.models, Names(config.AvailableModels())), config.availableProviders)
  {
    var configured := config.GetAvailableModels();
    var names := Names(configured);
    var statuses: seq<ModelStatus> := [];
    var i := 0;
    while i < |config.models|
      invariant 0 <= i <= |config.models|
      invariant |statuses| == i
      invariant forall k :: 0 <= k < i ==> statuses[k] == StatusOf(config.models[k], names)
    {
      statuses := statuses + [StatusOf(config.models[i], names)];
      i := i + 1;
    }
    var missing := MissingNames(config.models, names);
    listing := ModelsListing(statuses, ModelsSummary(|config.models|, |configured|, missing, config.availableProviders));
  }

  /** The missing keys are the models of unconfigured providers, and they complete the configured count to the total. */
  lemma MissingKeysComplementConfigured(config: RouterConfig)
    requires config.Valid()
    ensures MissingNames(config.models, Names(config.AvailableModels()))
            == Names(ModelsWithout(Catalog(), config.availableProviders))
    ensures |config.AvailableModels()| + |MissingNames(config.models, Names(config.AvailableModels()))| == |config.models|
  {
    CatalogNamesDistinct();
    MissingIsWithout(Catalog(), config.availableProviders);
    ModelsPartition(Catalog(), config.availableProviders);
  }

  lemma {:induction false} MissingIsWithout(entries: seq<ModelEntry>, providers: seq<Provider>)
    requires DistinctNames(entries)
    ensures MissingNames(entries, Names(ModelsOf(entries, providers))) == Names(ModelsWithout(entries, providers))
  {
    if entries != [] {
      var tail := entries[1..];
      assert DistinctNames(tail) by {
        forall i, j | 0 <= i < j < |tail| ensures tail[i].name != tail[j].name {
          assert tail[i] == entries[i + 1] && tail[j] == entries[j + 1];
        }
      }
      MissingIsWithout(tail, providers);
      AvailableByName(entries, providers, 0);
      var head := entries[0];
      var all := Names(ModelsOf(entries, providers));
      var rest := Names(ModelsOf(tail, providers));
      forall e | e in tail ensures e.name in all <==> e.name in rest {
        var k :| 0 <= k < |tail| && tail[k] == e;
        AvailableByName(entries, providers, k + 1);
        AvailableByName(tail, providers, k);
        assert entries[k + 1] == e;
      }
      NamesFilterAgree(tail, all, rest);
      if head.config.provider in providers {
        assert ModelsWithout(entries, providers) == ModelsWithout(tail, providers);
      } else {
        assert ModelsWithout(entries, providers) == [head] + ModelsWithout(tail, providers);
        assert Names([head] + ModelsWithout(tail, providers)) == [head.name] + Names(ModelsWithout(tail, providers));
      }
    }
  }

  lemma {:induction false} NamesFilterAgree(entries: seq<ModelEntry>, a: seq<string>, b: seq<string>)
    requires forall e :: e in entries ==> (e.name in a <==> e.name in b)
    ensures MissingNames(entries, a) == MissingNames(entries, b)
  {
    if entries != [] {
      assert entries[0] in entries;
      NamesFilterAgree(entries[1..], a, b);
    }
  }

  // ---------------------------------------------------------------------
  // GET /status
  // ---------------------------------------------------------------------

  datatype ProviderStatus = ProviderStatus(provider: Provider, configured: bool, models: seq<string>, envVar: string)

  datatype StatusSummary = StatusSummary(
    totalProviders: nat,
    configuredProviders: nat,
    readyToUse: bool,
    nextSteps: string)

  datatype ApiStatus = ApiStatus(providers: seq<ProviderStatus>, summary: StatusSummary)

  /** `[model for model, cfg in models.items() if cfg["provider"] == provider]`. */
  function ModelNamesOf(entries: seq<ModelEntry>, p: Provider): (names: seq<string>)
    ensures forall m :: m in names <==> exists e :: e in entries && e.name == m && e.config.provider == p
  {
    if entries == [] then []
    else
      var rest := ModelNamesOf(entries[1..], p);
      assert forall e :: e in entries[1..] ==> e in entries;
      assert forall e :: e in entries ==> e == entries[0] || e in entries[1..];
      if entries[0].config.provider == p then [entries[0].name] + rest else rest
  }

  function NextSteps(configuredCount: nat): string {
    if configuredCount == 0 then "Configure pelo menos uma chave de API no arquivo .env" else "Pronto para usar!"
  }

  /** `get_api_status`. */
  method GetApiStatus(config: RouterConfig) returns (status: ApiStatus)
    ensures |status.providers| == |AllProviders|
    ensures forall i :: 0 <= i < |AllProviders| ==>
      var p := AllProviders[i];
      status.providers[i] == ProviderStatus(p, config.IsProviderAvailable(p), ModelNamesOf(config.models, p), KeyVariable(p))
    ensures status.summary == StatusSummary(3, |config.availableProviders|, |config.availableProviders| > 0,
                                            NextSteps(|config.availableProviders|))
  {
    var entries: seq<ProviderStatus> := [];
    var i := 0;
    while i < |AllProviders|
      invariant 0 <= i <= |AllProviders|
      invariant |entries| == i
      invariant forall k :: 0 <= k < i ==>
        entries[k] == ProviderStatus(AllProviders[k], config.IsProviderAvailable(AllProviders[k]), ModelNamesOf(config.models, AllProviders[k]), KeyVariable(AllProviders[k]))
    {
      var p := AllProviders[i];
      EnvVarIsKeyVariable(p);
      var envVar := UpperAscii(ProviderName(p)) + "_API_KEY";
      entries := entries + [ProviderStatus(p, config.IsProviderAvailable(p), ModelNamesOf(config.models, p), envVar)];
      i := i + 1;
    }
    var count := |config.availableProviders|;
    status := ApiStatus(entries, StatusSummary(|entries|, count, count > 0, NextSteps(count)));
  }

  /** The variable `/status` names for a provider is the one the configuration reads. */
  lemma EnvVarIsKeyVariable(p: Provider)
    ensures UpperAscii(ProviderName(p)) + "_API_KEY" == KeyVariable(p)
  {
  }

  /** Every provider's model list in `/status` is non-empty. */
  lemma EveryProviderListsModels(config: RouterConfig, p: Provider)
    requires config.Valid()
    ensures ModelNamesOf(config.models, p) != []
  {
    CatalogCoversProviders();
    assert p in ProvidersOf(Catalog());
    var k :| 0 <= k < |Catalog()| && ProvidersOf(Catalog())[k] == p;
    assert Catalog()[k] in Catalog();
    assert Catalog()[k].name in ModelNamesOf(config.models, p);
  }

  // ---------------------------------------------------------------------
  // GET /
  // ---------------------------------------------------------------------

  datatype RootInfo = RootInfo(
    message: string,
    version: string,
    modelsConfigured: nat,
    totalModels: nat,
    availableModels: seq<string>,
    availableProviders: seq<Provider>,
    defaultModel: string,
    status: string,
    documentation: string)

  /** `root`. */
  function Root(config: RouterConfig): RootInfo {
    var available := config.AvailableModels();
    RootInfo(
      "\U{1F680} RouterLLM est\U{E1} rodando!",
      "1.0.0",
      |available|,
      |config.models|,
      Names(available),
      config.availableProviders,
      config.defaultModel,
      if |available| > 0 then "online" else "waiting_for_api_keys",
      "/docs")
  }

  /** The service reports itself online exactly when some provider has a key. */
  lemma RootOnlineIffProvider(config: RouterConfig)
    requires config.Valid()
    ensures Root(config).status == "online" <==> config.availableProviders != []
    ensures Root(config).status == "online" ==> Root(config).defaultModel in Root(config).availableModels
  {
    AvailableIffProvider(config.availableProviders);
    if config.availableProviders != [] {
      DefaultModelAvailable(config.availableProviders);
    }
  }
}
