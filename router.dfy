/**
 * router.py: the LLMRouter. The rule cascade that picks a model for a
 * message, the provider call with its degraded fallback, the usage counters
 * it keeps in `self.stats`, the cost estimate and the stats snapshot.
 */
module Router {
  import opened Wrappers
  import opened Text
  import opened Config
  import opened Adapters

  // ---------------------------------------------------------------------
  // Usage counters: `self.stats`
  // ---------------------------------------------------------------------

  /** One key of `stats["model_usage"]` with its count; the list keeps dict insertion order. */
  datatype UsageEntry = UsageEntry(model: string, count: nat)

  datatype Stats = Stats(totalRequests: int, modelUsage: seq<UsageEntry>, totalCost: real, avgResponseTime: real)

  const InitialStats: Stats := Stats(0, [], 0.0, 0.0)

  function UsageKeys(usage: seq<UsageEntry>): (keys: seq<string>)
    ensures |keys| == |usage|
    ensures forall i :: 0 <= i < |usage| ==> keys[i] == usage[i].model
  {
    if usage == [] then [] else [usage[0].model] + UsageKeys(usage[1..])
  }

  predicate DistinctKeys(usage: seq<UsageEntry>) {
    forall i, j :: 0 <= i < j < |usage| ==> usage[i].model != usage[j].model
  }

  /** `model_usage.get(model, 0)`. */
  function UsageOf(usage: seq<UsageEntry>, model: string): nat {
    if usage == [] then 0
    else if usage[0].model == model then usage[0].count
    else UsageOf(usage[1..], model)
  }

  /** `model_usage[model] = model_usage.get(model, 0) + 1`: an existing key keeps its place, a new one goes last. */
  function Bump(usage: seq<UsageEntry>, model: string): seq<UsageEntry> {
    if usage == [] then [UsageEntry(model, 1)]
    else if usage[0].model == model then [UsageEntry(model, usage[0].count + 1)] + usage[1..]
    else [usage[0]] + Bump(usage[1..], model)
  }

  /** The sum of all per-model counts. */
  function UsageTotal(usage: seq<UsageEntry>): nat {
    if usage == [] then 0 else usage[0].count + UsageTotal(usage[1..])
  }

  /** Bumping a model adds one to its count and to the total, and to nothing else. */
  lemma {:induction false} BumpCounts(usage: seq<UsageEntry>, model: string, other: string)
    ensures UsageOf(Bump(usage, model), model) == UsageOf(usage, model) + 1
    ensures other != model ==> UsageOf(Bump(usage, model), other) == UsageOf(usage, other)
    ensures UsageTotal(Bump(usage, model)) == UsageTotal(usage) + 1
  {
    if usage != [] && usage[0].model != model {
      BumpCounts(usage[1..], model, other);
      assert Bump(usage, model)[1..] == Bump(usage[1..], model);
    }
  }

  /** Bumping keeps the keys in place and appends a key seen for the first time. */
  lemma {:induction false} BumpKeys(usage: seq<UsageEntry>, model: string)
    ensures UsageKeys(Bump(usage, model)) == if model in UsageKeys(usage) then UsageKeys(usage) else UsageKeys(usage) + [model]
  {
    if usage != [] {
      var tail := usage[1..];
      BumpKeys(tail, model);
      if usage[0].model != model {
        assert Bump(usage, model)[1..] == Bump(tail, model);
        if model !in UsageKeys(tail) {
          assert [usage[0].model] + (UsageKeys(tail) + [model]) == ([usage[0].model] + UsageKeys(tail)) + [model];
        }
      } else {
        assert Bump(usage, model)[1..] == tail;
      }
    }
  }

  /**
   * Every entry after bumping was already there or belongs to the bumped
   * model, and every entry of another model is still there.
   */
  lemma {:induction false} BumpEntries(usage: seq<UsageEntry>, model: string)
    ensures forall e :: e in Bump(usage, model) ==> e in usage || e.model == model
    ensures forall e :: e in usage && e.model != model ==> e in Bump(usage, model)
  {
    if usage != [] {
      var tail := usage[1..];
      BumpEntries(tail, model);
      assert forall e :: e in usage ==> e == usage[0] || e in tail;
      if usage[0].model != model {
        assert Bump(usage, model) == [usage[0]] + Bump(tail, model);
        assert forall e :: e in tail ==> e in usage;
      } else {
        assert Bump(usage, model) == [UsageEntry(model, usage[0].count + 1)] + tail;
      }
    }
  }

  /** The effect of one completed `call_model` on the counters. */
  function Record(stats: Stats, model: string): Stats {
    stats.(totalRequests := stats.totalRequests + 1, modelUsage := Bump(stats.modelUsage, model))
  }

  /**
   * What holds of `self.stats` at all times: cost and response time are never
   * written and stay 0.0, each key is a catalog model with a positive count,
   * keys are distinct, and the request total is the sum of the counts.
   */
  ghost predicate StatsInvariant(stats: Stats) {
    && stats.totalCost == 0.0
    && stats.avgResponseTime == 0.0
    && DistinctKeys(stats.modelUsage)
    && stats.totalRequests == UsageTotal(stats.modelUsage)
    && forall e :: e in stats.modelUsage ==> e.model in Names(Catalog()) && e.count > 0
  }

  lemma RecordKeepsInvariant(stats: Stats, model: string)
    requires StatsInvariant(stats)
    requires model in Names(Catalog())
    ensures StatsInvariant(Record(stats, model))
  {
    var u := stats.modelUsage;
    var v := Bump(u, model);
    BumpCounts(u, model, model);
    BumpKeys(u, model);
    BumpEntries(u, model);
    forall i, j | 0 <= i < j < |v| ensures v[i].model != v[j].model {
      assert UsageKeys(v)[i] == v[i].model && UsageKeys(v)[j] == v[j].model;
      if model !in UsageKeys(u) && j == |u| {
        assert v[i].model == UsageKeys(u)[i] == u[i].model;
      } else {
        assert v[i].model == u[i].model && v[j].model == u[j].model;
      }
    }
    forall e | e in v ensures e.model in Names(Catalog()) && e.count > 0 {
      if e !in u {
        assert e.model == model;
        var k :| 0 <= k < |v| && v[k] == e;
        BumpCountAt(u, model, k);
      }
    }
  }

  /** The entry of the bumped model counts at least one. */
  lemma {:induction false} BumpCountAt(usage: seq<UsageEntry>, model: string, k: nat)
    requires k < |Bump(usage, model)|
    requires Bump(usage, model)[k].model == model
    requires Bump(usage, model)[k] !in usage
    ensures Bump(usage, model)[k].count > 0
  {
    if usage != [] && usage[0].model != model {
      assert k > 0;
      assert Bump(usage, model)[k] == Bump(usage[1..], model)[k - 1];
      BumpCountAt(usage[1..], model, k - 1);
    }
  }

  // ---------------------------------------------------------------------
  // `get_stats`: the most used model
  // ---------------------------------------------------------------------

  /** `max(model_usage, key=model_usage.get)`: the first key whose count is largest. */
  function FirstMaxIndex(usage: seq<UsageEntry>): (k: nat)
    requires usage != []
    ensures k < |usage|
    ensures forall i :: 0 <= i < |usage| ==> usage[i].count <= usage[k].count
    ensures forall i :: 0 <= i < k ==> usage[i].count < usage[k].count
  {
    if |usage| == 1 then 0
    else
      var j := 1 + FirstMaxIndex(usage[1..]);
      assert forall i :: 1 <= i < |usage| ==> usage[i] == usage[1..][i - 1];
      if usage[j].count > usage[0].count then j else 0
  }

  function MostUsedModel(usage: seq<UsageEntry>): Option<string> {
    if usage == [] then None else Some(usage[FirstMaxIndex(usage)].model)
  }

  /** Position `k` holds a largest count, and every earlier count is smaller. */
  predicate IsFirstMaximum(usage: seq<UsageEntry>, k: int) {
    && 0 <= k < |usage|
    && (forall i :: 0 <= i < |usage| ==> usage[i].count <= usage[k].count)
    && (forall i :: 0 <= i < k ==> usage[i].count < usage[k].count)
  }

  /** `most_used_model` is None exactly when nothing was used; otherwise the first key with the largest count. */
  lemma MostUsedModelSpec(usage: seq<UsageEntry>)
    ensures MostUsedModel(usage).None? <==> usage == []
    ensures usage != [] ==> exists k :: IsFirstMaximum(usage, k) && MostUsedModel(usage) == Some(usage[k].model)
  {
    if usage != [] {
      var k := FirstMaxIndex(usage);
      assert MostUsedModel(usage) == Some(usage[k].model);
    }
  }

  /** What `get_stats` returns: every stats field, the timestamp and the most used model. */
  datatype Snapshot = Snapshot(
    totalRequests: int,
    modelUsage: seq<UsageEntry>,
    totalCost: real,
    avgResponseTime: real,
    timestamp: string,
    mostUsedModel: Option<string>)

  // ---------------------------------------------------------------------
  // The rule cascade of `route_request`
  // ---------------------------------------------------------------------

  const CodeKeywords: seq<string> :=
    ["c\U{F3}digo", "code", "python", "javascript", "sql", "debug", "erro", "fun\U{E7}\U{E3}o", "class", "import"]

  const SimplePatterns: seq<string> :=
    ["o que \U{E9}", "como", "quando", "onde", "quem", "sim ou n\U{E3}o", "verdadeiro ou falso"]

  const CreativeKeywords: seq<string> :=
    ["criativo", "marketing", "copy", "slogan", "hist\U{F3}ria", "poema", "roteiro"]

  /** Which branch of the if/elif chain a message takes. */
  datatype Rule =
    | CodeRule        // rule 1
    | SimpleRule      // rule 2, a simple pattern matched
    | ShortUnmatched  // rule 2's branch taken, no simple pattern: nothing preferred
    | LongRule        // rule 3
    | CreativeRule    // rule 4
    | GeneralRule     // rule 5

  predicate HasCodeKeyword(message: string) {
    ContainsAny(Lower(message), CodeKeywords)
  }

  predicate HasSimplePattern(message: string) {
    ContainsAny(Lower(message), SimplePatterns)
  }

  predicate HasCreativeKeyword(message: string) {
    ContainsAny(Lower(message), CreativeKeywords)
  }

  /** The cascade: the first condition that holds decides, and rule 2's branch has its own inner test. */
  function RuleFor(message: string): Rule {
    if HasCodeKeyword(message) then CodeRule
    else if |message| < 100 then (if HasSimplePattern(message) then SimpleRule else ShortUnmatched)
    else if |message| > 1000 then LongRule
    else if HasCreativeKeyword(message) then CreativeRule
    else GeneralRule
  }

  /** `all_preferred` of each branch; none when rule 2's pattern test fails. */
  function Preferences(rule: Rule): seq<string> {
    match rule
    case CodeRule => ["gpt-4", "claude-3-5-sonnet", "gpt-4o-mini"]
    case SimpleRule => ["gpt-4o-mini", "claude-3-haiku", "gpt-4"]
    case ShortUnmatched => []
    case LongRule => ["claude-3-5-sonnet", "gemini-1.5-pro", "gpt-4"]
    case CreativeRule => ["gemini-1.5-pro", "claude-3-5-sonnet", "gpt-4"]
    case GeneralRule => ["claude-3-haiku", "gpt-4o-mini", "gpt-4"]
  }

  function RuleReasoning(rule: Rule): string {
    match rule
    case CodeRule => "\U{1F527} Detectei programa\U{E7}\U{E3}o - priorizando modelos premium"
    case SimpleRule => "\U{26A1} Pergunta simples - priorizando modelos r\U{E1}pidos"
    case ShortUnmatched => ""
    case LongRule => "\U{1F4C4} Texto longo - priorizando modelos com contexto extenso"
    case CreativeRule => "\U{1F3A8} Conte\U{FA}do criativo - priorizando modelos criativos"
    case GeneralRule => "\U{2696}\U{FE0F} Caso geral - priorizando modelos balanceados"
  }

  /** `[m for m in candidates if m in available]`. */
  function Keep(candidates: seq<string>, available: seq<string>): (kept: seq<string>)
    ensures forall m {:trigger m in kept} :: m in kept <==> m in candidates && m in available
  {
    if candidates == [] then []
    else if candidates[0] in available then [candidates[0]] + Keep(candidates[1..], available)
    else Keep(candidates[1..], available)
  }

  /** Filtering keeps the preference order. */
  lemma {:induction false} KeepIsSubsequence(candidates: seq<string>, available: seq<string>)
    ensures IsSubsequence(Keep(candidates, available), candidates)
  {
    if candidates != [] {
      KeepIsSubsequence(candidates[1..], available);
    }
  }

  /** Nothing survives when no candidate is available. */
  lemma {:induction false} KeepNone(candidates: seq<string>, available: seq<string>)
    requires forall m :: m in candidates ==> m !in available
    ensures Keep(candidates, available) == []
  {
    if candidates != [] {
      assert candidates[0] in candidates;
      assert forall m :: m in candidates[1..] ==> m in candidates;
      KeepNone(candidates[1..], available);
    }
  }

  /** A routing decision: `(selected_model, reasoning)`. */
  datatype Decision = Decision(model: string, reasoning: string)

  const NoApiReasoning: string :=
    "\U{274C} Nenhuma API configurada. Configure pelo menos uma chave de API no arquivo .env"

  const NoKeyReasoning: string :=
    "\U{274C} Nenhuma chave de API configurada! Configure pelo menos uma chave no arquivo .env"

  function PreferredReasoning(rule: Rule, model: string): string {
    RuleReasoning(rule) + " (usando " + model + ")"
  }

  function DefaultReasoning(model: string): string {
    "\U{26A0}\U{FE0F} Usando " + model + " (modelo padr\U{E3}o)"
  }

  function OnlyModelReasoning(model: string): string {
    "\U{26A0}\U{FE0F} Usando " + model + " (\U{FA}nico modelo dispon\U{ED}vel)"
  }

  // ---------------------------------------------------------------------
  // The provider call of `call_model`
  // ---------------------------------------------------------------------

  /** The text substituted when the provider call raised. */
  function DegradedText(model: string): string {
    "\U{26A0}\U{FE0F} [ERRO] N\U{E3}o foi poss\U{ED}vel conectar com " + model + ". Verifique sua chave de API."
  }

  /** The degraded answer: the template naming the model, and twice the message's word count. */
  function Degraded(model: string, message: string): Completion {
    Completion(DegradedText(model), 2 * WordCount(message))
  }

  /** What `call_model` does not catch: an unknown model. */
  function NotConfiguredMessage(model: string): string {
    "Modelo " + model + " n\U{E3}o configurado"
  }

  /** The adapter for the model's provider, with the key read from the environment at call time. */
  function ProviderCall(provider: Provider, model: string, message: string, maxTokens: int, temperature: real,
                        env: Environment, transport: Transport): Result<Completion, CallError>
  {
    var key := GetEnv(env, KeyVariable(provider));
    match provider
    case OpenAI => CallOpenAI(model, message, maxTokens, temperature, key, transport)
    case Anthropic => CallAnthropic(model, message, maxTokens, temperature, key, transport)
    case Google => CallGoogle(message, maxTokens, temperature, key, transport)
  }

  /** The pair `call_model` returns for a catalog model: the adapter's answer, or the degraded one. */
  function ModelReply(provider: Provider, model: string, message: string, maxTokens: int, temperature: real,
                      env: Environment, transport: Transport): Completion
  {
    match ProviderCall(provider, model, message, maxTokens, temperature, env, transport)
    case Ok(completion) => completion
    case Err(_) => Degraded(model, message)
  }

  // ---------------------------------------------------------------------
  // LLMRouter
  // ---------------------------------------------------------------------

  class LLMRouter {
    const config: RouterConfig
    var stats: Stats

    ghost predicate Valid()
      reads this
    {
      config.Valid() && StatsInvariant(stats)
    }

    constructor (config: RouterConfig)
      requires config.Valid()
      ensures Valid()
      ensures this.config == config && stats == InitialStats
    {
      this.config := config;
      stats := InitialStats;
    }

    /** `get_available_models`: every catalog model with whether its provider has a key. */
    method GetAvailableModels() returns (available: seq<(string, bool)>)
      ensures |available| == |config.models|
      ensures forall i :: 0 <= i < |available| ==>
        && available[i].0 == config.models[i].name
        && (available[i].1 <==> config.models[i].name in Names(config.AvailableModels()))
      ensures DistinctNames(config.models) ==> forall i :: 0 <= i < |available| ==>
        (available[i].1 <==> config.models[i].config.provider in config.availableProviders)
    {
      var configured := config.GetAvailableModels();
      var names := Names(configured);
      available := [];
      var i := 0;
      while i < |config.models|
        invariant 0 <= i <= |config.models|
        invariant |available| == i
        invariant forall k :: 0 <= k < i ==>
          && available[k].0 == config.models[k].name
          && (available[k].1 <==> config.models[k].name in names)
      {
        available := available + [(config.models[i].name, config.models[i].name in names)];
        i := i + 1;
      }
      if DistinctNames(config.models) {
        forall k | 0 <= k < i
          ensures available[k].1 <==> config.models[k].config.provider in config.availableProviders
        {
          AvailableByName(config.models, config.availableProviders, k);
        }
      }
    }

    /** `route_request`: the rule cascade, filtered by the available models, with its fallbacks. */
    function RouteRequest(message: string): (d: Decision)
      ensures Names(config.AvailableModels()) == [] ==> d == Decision("error", NoApiReasoning)
      ensures Names(config.AvailableModels()) != [] ==> d.model in Names(config.AvailableModels())
    {
      var available := Names(config.AvailableModels());
      if available == [] then Decision("error", NoApiReasoning)
      else
        var rule := RuleFor(message);
        var preferred := Keep(Preferences(rule), available);
        if preferred != [] then
          assert preferred[0] in preferred;
          Decision(preferred[0], PreferredReasoning(rule, preferred[0]))
        else if config.defaultModel in available then Decision(config.defaultModel, DefaultReasoning(config.defaultModel))
        else if available != [] then Decision(available[0], OnlyModelReasoning(available[0]))
        else Decision("error", NoKeyReasoning)
    }

    /** `call_model`: raise for an unknown model; otherwise call, degrade on failure, and count the request. */
    method CallModel(model: string, message: string, maxTokens: int, temperature: real,
                     env: Environment, transport: Transport) returns (result: Result<Completion, string>)
      requires Valid()
      modifies this
      ensures Valid()
      ensures Lookup(config.models, model).None? ==>
        result == Err(NotConfiguredMessage(model)) && stats == old(stats)
      ensures Lookup(config.models, model).Some? ==>
        && result == Ok(ModelReply(Lookup(config.models, model).value.provider, model, message, maxTokens,
                                   temperature, env, transport))
        && stats == Record(old(stats), model)
    {
      var modelConfig := Lookup(config.models, model);
      if modelConfig.None? {
        return Err(NotConfiguredMessage(model));
      }
      var completion := ModelReply(modelConfig.value.provider, model, message, maxTokens, temperature, env, transport);
      RecordKeepsInvariant(stats, model);
      stats := Record(stats, model);
      result := Ok(completion);
    }

    /** `cost_per_1k_tokens` of the model, 0.001 for a model the catalog does not hold. */
    function CostRate(model: string): real {
      match Lookup(config.models, model)
      case Some(modelConfig) => modelConfig.costPer1kTokens
      case None => 0.001
    }

    /** `calculate_cost`: tokens / 1000 times the model's rate. */
    function CalculateCost(model: string, tokens: int): real {
      (tokens as real / 1000.0) * CostRate(model)
    }

    /** `get_stats`; the clock's reading is a parameter. */
    function GetStats(timestamp: string): Snapshot
      reads this
    {
      Snapshot(stats.totalRequests, stats.modelUsage, stats.totalCost, stats.avgResponseTime, timestamp,
               MostUsedModel(stats.modelUsage))
    }
  }

  /** With distinct names, a model is among the available names exactly when its provider has a key. */
  lemma AvailableByName(entries: seq<ModelEntry>, providers: seq<Provider>, k: nat)
    requires k < |entries|
    requires DistinctNames(entries)
    ensures entries[k].name in Names(ModelsOf(entries, providers)) <==> entries[k].config.provider in providers
  {
    var r := ModelsOf(entries, providers);
    assert entries[k] in entries;
    if entries[k].config.provider in providers {
      assert entries[k] in r;
      var j :| 0 <= j < |r| && r[j] == entries[k];
      assert Names(r)[j] == entries[k].name;
    }
    if entries[k].name in Names(r) {
      var j :| 0 <= j < |r| && Names(r)[j] == entries[k].name;
      assert r[j] in r;
      assert r[j] in entries;
      var k' :| 0 <= k' < |entries| && entries[k'] == r[j];
      assert k' == k;
    }
  }
}

/** Properties of routing, calling and accounting, stated over the definitions above. */
module RouterProperties {
  import opened Wrappers
  import opened Text
  import opened Http
  import opened Config
  import opened Adapters
  import opened Router

  // ---------------------------------------------------------------------
  // The cascade
  // ---------------------------------------------------------------------

  /** A code keyword selects rule 1 at any length. */
  lemma CodeRuleAnyLength(message: string)
    requires HasCodeKeyword(message)
    ensures RuleFor(message) == CodeRule
    ensures Preferences(RuleFor(message)) == ["gpt-4", "claude-3-5-sonnet", "gpt-4o-mini"]
  {
  }

  /**
   * Below 100 characters and without a code keyword, rule 2's branch is taken
   * whether or not a simple pattern matches: a miss prefers nothing, and the
   * long, creative and general rules are never evaluated.
   */
  lemma ShortMessagesStopAtRuleTwo(message: string)
    requires !HasCodeKeyword(message) && |message| < 100
    ensures HasSimplePattern(message) ==>
      RuleFor(message) == SimpleRule && Preferences(RuleFor(message)) == ["gpt-4o-mini", "claude-3-haiku", "gpt-4"]
    ensures !HasSimplePattern(message) ==>
      RuleFor(message) == ShortUnmatched && Preferences(RuleFor(message)) == []
  {
  }

  /** From 100 characters on, rule 3 takes exactly the messages longer than 1000 characters. */
  lemma LongRuleIsStrict(message: string)
    requires !HasCodeKeyword(message) && |message| >= 100
    ensures RuleFor(message) == LongRule <==> |message| > 1000
    ensures |message| > 1000 ==> Preferences(RuleFor(message)) == ["claude-3-5-sonnet", "gemini-1.5-pro", "gpt-4"]
  {
  }

  /** Between 100 and 1000 characters, the creative keywords decide between rules 4 and 5. */
  lemma MidLengthRules(message: string)
    requires !HasCodeKeyword(message) && 100 <= |message| <= 1000
    ensures HasCreativeKeyword(message) ==>
      RuleFor(message) == CreativeRule && Preferences(RuleFor(message)) == ["gemini-1.5-pro", "claude-3-5-sonnet", "gpt-4"]
    ensures !HasCreativeKeyword(message) ==>
      RuleFor(message) == GeneralRule && Preferences(RuleFor(message)) == ["claude-3-haiku", "gpt-4o-mini", "gpt-4"]
  {
  }

  /** Messages equal up to case are classified alike. */
  lemma RuleIgnoresCase(a: string, b: string)
    requires Lower(a) == Lower(b)
    ensures RuleFor(a) == RuleFor(b)
  {
  }

  /** Every preference names a catalog model, and no list repeats one. */
  lemma PreferencesAreCatalogModels(rule: Rule)
    ensures forall m :: m in Preferences(rule) ==> m in Names(Catalog())
    ensures forall i, j :: 0 <= i < j < |Preferences(rule)| ==> Preferences(rule)[i] != Preferences(rule)[j]
  {
    var c := Catalog();
    assert Names(c) == ["gpt-4o-mini", "gpt-4", "claude-3-haiku", "claude-3-5-sonnet", "gemini-1.5-pro"];
  }

  // ---------------------------------------------------------------------
  // Selection
  // ---------------------------------------------------------------------

  /** The sentinel is not a catalog model. */
  lemma ErrorIsNotAModel()
    ensures "error" !in Names(Catalog())
    ensures Lookup(Catalog(), "error").None?
  {
    var c := Catalog();
    assert Names(c) == ["gpt-4o-mini", "gpt-4", "claude-3-haiku", "claude-3-5-sonnet", "gemini-1.5-pro"];
  }

  /** "error" comes back exactly when no provider has a key; otherwise the model is an available one. */
  lemma RouteSelectsAvailableModel(router: LLMRouter, message: string)
    requires router.config.Valid()
    ensures router.config.availableProviders == [] <==> router.RouteRequest(message).model == "error"
    ensures router.config.availableProviders == [] ==> router.RouteRequest(message) == Decision("error", NoApiReasoning)
    ensures router.config.availableProviders != [] ==>
      router.RouteRequest(message).model in Names(router.config.AvailableModels())
  {
    var config := router.config;
    AvailableIffProvider(config.availableProviders);
    ErrorIsNotAModel();
    var available := config.AvailableModels();
    var names := Names(available);
    if config.availableProviders != [] {
      var d := router.RouteRequest(message);
      var preferred := Keep(Preferences(RuleFor(message)), names);
      if preferred != [] {
        assert preferred[0] in preferred;
      }
      assert d.model in names;
      var j :| 0 <= j < |available| && names[j] == d.model;
      assert available[j] in available;
      assert available[j] in Catalog();
      assert d.model in Names(Catalog());
    }
  }

  /**
   * With some provider configured, the model is the first surviving
   * preference, else the default model; the last-resort branches after the
   * default are never reached.
   */
  lemma RouteIsPreferenceOrDefault(router: LLMRouter, message: string)
    requires router.config.Valid()
    requires router.config.availableProviders != []
    ensures var preferred := Keep(Preferences(RuleFor(message)), Names(router.config.AvailableModels()));
      router.RouteRequest(message) ==
        if preferred != [] then Decision(preferred[0], PreferredReasoning(RuleFor(message), preferred[0]))
        else Decision(router.config.defaultModel, DefaultReasoning(router.config.defaultModel))
  {
    DefaultModelAvailable(router.config.availableProviders);
  }

  /** A short message with no code keyword and no simple pattern always gets the default model. */
  lemma ShortUnmatchedGetsDefault(router: LLMRouter, message: string)
    requires router.config.Valid()
    requires router.config.availableProviders != []
    requires !HasCodeKeyword(message) && |message| < 100 && !HasSimplePattern(message)
    ensures router.RouteRequest(message) == Decision(router.config.defaultModel, DefaultReasoning(router.config.defaultModel))
  {
    RouteIsPreferenceOrDefault(router, message);
  }

  /** With only a Google key, a code question falls back to the default model, Gemini. */
  lemma CodeOnGoogleOnlyUsesDefault(router: LLMRouter, message: string)
    requires router.config.Valid()
    requires router.config.availableProviders == [Google]
    requires HasCodeKeyword(message)
    ensures router.RouteRequest(message) == Decision("gemini-1.5-pro", DefaultReasoning("gemini-1.5-pro"))
  {
    var config := router.config;
    OnlyGeminiOnGoogle();
    assert Names(config.AvailableModels()) == ["gemini-1.5-pro"];
    assert RuleFor(message) == CodeRule;
    KeepNone(Preferences(CodeRule), ["gemini-1.5-pro"]);
    assert config.defaultModel == "gemini-1.5-pro";
  }

  // ---------------------------------------------------------------------
  // The provider call
  // ---------------------------------------------------------------------

  /** The placeholder each adapter refuses. */
  function PlaceholderFor(p: Provider): string {
    match p
    case OpenAI => OpenAIPlaceholder
    case Anthropic => AnthropicPlaceholder
    case Google => GooglePlaceholder
  }

  /** The degraded text names the model that could not be reached. */
  lemma DegradedTextNamesModel(model: string)
    ensures Contains(DegradedText(model), model)
  {
    var prefix := "\U{26A0}\U{FE0F} [ERRO] N\U{E3}o foi poss\U{ED}vel conectar com ";
    var suffix := ". Verifique sua chave de API.";
    assert StartsWith(model, model);
    ContainsInside(prefix, model, suffix, model);
    assert DegradedText(model) == prefix + model + suffix;
  }

  /**
   * A placeholder key counts as configured, so the provider is listed as
   * available, yet every call to its models degrades, whatever the network does.
   */
  lemma PlaceholderKeyDegrades(p: Provider, model: string, message: string, maxTokens: int, temperature: real,
                               env: Environment, transport: Transport)
    requires GetEnv(env, KeyVariable(p)) == Some(PlaceholderFor(p))
    ensures KeyPresent(env, p)
    ensures ModelReply(p, model, message, maxTokens, temperature, env, transport) == Degraded(model, message)
  {
    RejectedKeyMakesNoRequest(model, message, maxTokens, temperature, GetEnv(env, KeyVariable(p)), transport);
  }

  /** When the provider answers with an error status for every request, the reply is degraded. */
  lemma UpstreamErrorDegrades(p: Provider, model: string, message: string, maxTokens: int, temperature: real,
                              env: Environment, transport: Transport)
    requires forall request :: transport(request).Response? && transport(request).status != 200
    ensures ModelReply(p, model, message, maxTokens, temperature, env, transport) == Degraded(model, message)
  {
  }

  /** A successful OpenAI call answers with the reply's text and its `total_tokens`. */
  lemma OpenAICallSucceeds(model: string, message: string, maxTokens: int, temperature: real, env: Environment,
                           text: string, raw: string, prompt: int, completion: int, total: int, transport: Transport)
    requires KeyAccepted(GetEnv(env, KeyVariable(OpenAI)), OpenAIPlaceholder)
    requires forall request :: transport(request) == Response(200, raw, Some(OpenAIReplyBody(text, prompt, completion, total)))
    ensures ModelReply(OpenAI, model, message, maxTokens, temperature, env, transport) == Completion(text, total)
  {
    OpenAIReadsTotalTokens(text, prompt, completion, total);
  }

  /** A successful Anthropic call answers with the reply's text and input plus output tokens. */
  lemma AnthropicCallSucceeds(model: string, message: string, maxTokens: int, temperature: real, env: Environment,
                              text: string, raw: string, input: int, output: int, transport: Transport)
    requires KeyAccepted(GetEnv(env, KeyVariable(Anthropic)), AnthropicPlaceholder)
    requires forall request :: transport(request) == Response(200, raw, Some(AnthropicReplyBody(text, input, output)))
    ensures ModelReply(Anthropic, model, message, maxTokens, temperature, env, transport) == Completion(text, input + output)
  {
    AnthropicReadsTokenSum(text, input, output);
  }

  /** A successful Google call answers with the reply's text and the estimated word total. */
  lemma GoogleCallSucceeds(model: string, message: string, maxTokens: int, temperature: real, env: Environment,
                           text: string, raw: string, transport: Transport)
    requires KeyAccepted(GetEnv(env, KeyVariable(Google)), GooglePlaceholder)
    requires forall request :: transport(request) == Response(200, raw, Some(GoogleReplyBody(text)))
    ensures ModelReply(Google, model, message, maxTokens, temperature, env, transport)
            == Completion(text, WordCount(message) + WordCount(text))
  {
    GoogleEstimatesTokens(message, text);
  }

  // ---------------------------------------------------------------------
  // Accounting
  // ---------------------------------------------------------------------

  /**
   * One recorded call adds exactly one to the request total and to the
   * model's count, and changes no other count, the cost or the response time.
   */
  lemma RecordCountsOnce(stats: Stats, model: string, other: string)
    ensures Record(stats, model).totalRequests == stats.totalRequests + 1
    ensures UsageOf(Record(stats, model).modelUsage, model) == UsageOf(stats.modelUsage, model) + 1
    ensures other != model ==> UsageOf(Record(stats, model).modelUsage, other) == UsageOf(stats.modelUsage, other)
    ensures Record(stats, model).totalCost == stats.totalCost
    ensures Record(stats, model).avgResponseTime == stats.avgResponseTime
  {
    BumpCounts(stats.modelUsage, model, other);
  }

  /** The snapshot names a most used model exactly when some request was counted. */
  lemma MostUsedOnceRequested(router: LLMRouter, timestamp: string)
    requires router.Valid()
    ensures router.GetStats(timestamp).mostUsedModel.None? <==> router.stats.totalRequests == 0
    ensures router.GetStats(timestamp).totalCost == 0.0
  {
    var u := router.stats.modelUsage;
    MostUsedModelSpec(u);
    if u != [] {
      assert u[0] in u;
    }
  }

  /** The rate `calculate_cost` applies is never negative. */
  lemma RateNonNegative(router: LLMRouter, model: string)
    requires router.config.Valid()
    ensures router.CostRate(model) >= 0.0
  {
    var entry := Lookup(router.config.models, model);
    if entry.Some? {
      CatalogLimitsPositive();
      assert ModelEntry(model, entry.value) in Catalog();
    }
  }

  /** Cost is zero for no tokens, grows with the tokens, and adds up over calls. */
  lemma CostProperties(router: LLMRouter, model: string, t1: int, t2: int)
    requires router.config.Valid()
    ensures router.CalculateCost(model, 0) == 0.0
    ensures t1 <= t2 ==> router.CalculateCost(model, t1) <= router.CalculateCost(model, t2)
    ensures router.CalculateCost(model, t1 + t2) == router.CalculateCost(model, t1) + router.CalculateCost(model, t2)
  {
    RateNonNegative(router, model);
    var rate := router.CostRate(model);
    var x1, x2 := t1 as real / 1000.0, t2 as real / 1000.0;
    assert (t1 + t2) as real / 1000.0 == x1 + x2;
    assert (x1 + x2) * rate == x1 * rate + x2 * rate;
    if t1 <= t2 {
      ScaleMonotone(x1, x2, rate);
    }
  }

  lemma ScaleMonotone(x: real, y: real, r: real)
    requires x <= y && r >= 0.0
    ensures x * r <= y * r
  {
    assert y * r - x * r == (y - x) * r;
  }

  /** Rates from the catalog, and the 0.001 default for a model it does not know. */
  lemma CostExamples(router: LLMRouter)
    requires router.config.Valid()
    ensures router.CalculateCost("gpt-4", 1000) == 0.03
    ensures router.CalculateCost("gemini-1.5-pro", 2000) == 0.0025
    ensures router.CalculateCost("not-a-model", 500) == 0.0005
  {
    RateOfGpt4();
    RateOfGemini();
    NotAModelIsUnknown();
    UnknownModelHasNoRate("not-a-model");
    assert router.CostRate("gpt-4") == 0.03;
    assert router.CostRate("gemini-1.5-pro") == 0.00125;
    assert router.CostRate("not-a-model") == 0.001;
  }

}
