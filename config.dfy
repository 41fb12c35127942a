/**
 * config.py: the fixed model catalog, which providers have a key in the
 * environment, and the default and fallback models chosen from them.
 */
module Config {
  import opened Wrappers
  import opened Text

  datatype Provider = OpenAI | Anthropic | Google

  /** The provider's name as the catalog and the endpoints spell it. */
  function ProviderName(p: Provider): string {
    match p
    case OpenAI => "openai"
    case Anthropic => "anthropic"
    case Google => "google"
  }

  /** The environment variable that holds the provider's key. */
  function KeyVariable(p: Provider): string {
    match p
    case OpenAI => "OPENAI_API_KEY"
    case Anthropic => "ANTHROPIC_API_KEY"
    case Google => "GOOGLE_API_KEY"
  }

  /** The order in which providers are probed and listed. */
  function Rank(p: Provider): nat {
    match p
    case OpenAI => 0
    case Anthropic => 1
    case Google => 2
  }

  const AllProviders: seq<Provider> := [OpenAI, Anthropic, Google]

  /** One catalog entry's descriptor: `models[name]`. */
  datatype ModelConfig = ModelConfig(
    provider: Provider,
    costPer1kTokens: real,
    maxTokens: int,
    speed: string,
    quality: string,
    useCase: string)

  datatype ModelEntry = ModelEntry(name: string, config: ModelConfig)

  /** `self.models`, in the insertion order of the dict literal. */
  function Catalog(): seq<ModelEntry> {
    [ ModelEntry("gpt-4o-mini", ModelConfig(OpenAI, 0.00015, 16000, "fast", "good",
        "Perguntas simples, respostas r\U{E1}pidas")),
      ModelEntry("gpt-4", ModelConfig(OpenAI, 0.03, 8000, "medium", "excellent",
        "C\U{F3}digo, racioc\U{ED}nio complexo, precis\U{E3}o")),
      ModelEntry("claude-3-haiku", ModelConfig(Anthropic, 0.00025, 200000, "fast", "very_good",
        "Balanceado - boa qualidade, bom pre\U{E7}o")),
      ModelEntry("claude-3-5-sonnet", ModelConfig(Anthropic, 0.003, 200000, "medium", "excellent",
        "Textos longos, an\U{E1}lises profundas")),
      ModelEntry("gemini-1.5-pro", ModelConfig(Google, 0.00125, 1000000, "medium", "excellent",
        "Criatividade, contexto gigante")) ]
  }

  /** The keys of a model dict, in order. */
  function Names(entries: seq<ModelEntry>): (r: seq<string>)
    ensures |r| == |entries|
    ensures forall i :: 0 <= i < |entries| ==> r[i] == entries[i].name
  {
    seq(|entries|, i requires 0 <= i < |entries| => entries[i].name)
  }

  /** `models.get(name)`. */
  function Lookup(entries: seq<ModelEntry>, name: string): (r: Option<ModelConfig>)
    ensures r.Some? <==> name in Names(entries)
    ensures r.Some? ==> ModelEntry(name, r.value) in entries
  {
    if entries == [] then None
    else if entries[0].name == name then Some(entries[0].config)
    else Lookup(entries[1..], name)
  }

  /** `{name: cfg for name, cfg in models.items() if cfg.provider in providers}`. */
  function ModelsOf(entries: seq<ModelEntry>, providers: seq<Provider>): (r: seq<ModelEntry>)
    ensures |r| <= |entries|
    ensures forall e {:trigger e in r} :: e in r <==> e in entries && e.config.provider in providers
  {
    if entries == [] then []
    else if entries[0].config.provider in providers then [entries[0]] + ModelsOf(entries[1..], providers)
    else ModelsOf(entries[1..], providers)
  }

  /** The models whose provider is NOT among `providers`, in catalog order. */
  function ModelsWithout(entries: seq<ModelEntry>, providers: seq<Provider>): (r: seq<ModelEntry>)
    ensures forall e {:trigger e in r} :: e in r <==> e in entries && e.config.provider !in providers
  {
    if entries == [] then []
    else if entries[0].config.provider in providers then ModelsWithout(entries[1..], providers)
    else [entries[0]] + ModelsWithout(entries[1..], providers)
  }

  // ---------------------------------------------------------------------
  // Environment
  // ---------------------------------------------------------------------

  /** The process environment: variable name to value. */
  type Environment = map<string, string>

  /** `os.getenv(name)`. */
  function GetEnv(env: Environment, name: string): Option<string> {
    if name in env then Some(env[name]) else None
  }

  /** `if os.getenv(var):` -- set and non-empty. */
  predicate KeyPresent(env: Environment, p: Provider) {
    var v := GetEnv(env, KeyVariable(p));
    v.Some? && v.value != ""
  }

  /** Providers listed without repetition, in probe order. */
  predicate InProbeOrder(providers: seq<Provider>) {
    forall i, j :: 0 <= i < j < |providers| ==> Rank(providers[i]) < Rank(providers[j])
  }

  /** `_detect_available_providers`: append each provider whose key is present. */
  method DetectAvailableProviders(env: Environment) returns (providers: seq<Provider>)
    ensures forall p :: p in providers <==> KeyPresent(env, p)
    ensures InProbeOrder(providers)
  {
    var openai, anthropic, google := KeyPresent(env, OpenAI), KeyPresent(env, Anthropic), KeyPresent(env, Google);
    providers := [];
    if openai {
      providers := providers + [OpenAI];
    }
    if anthropic {
      providers := providers + [Anthropic];
    }
    if google {
      providers := providers + [Google];
    }
    forall p ensures p in providers <==> KeyPresent(env, p) {
      match p
      case OpenAI =>
      case Anthropic =>
      case Google =>
    }
  }

  /** `_get_default_model`: anthropic, then openai, then google, else "gpt-4o-mini". */
  function DefaultModelFor(providers: seq<Provider>): string {
    if Anthropic in providers then "claude-3-haiku"
    else if OpenAI in providers then "gpt-4o-mini"
    else if Google in providers then "gemini-1.5-pro"
    else "gpt-4o-mini"
  }

  /** `_get_fallback_model`: "gpt-4o-mini" with openai, else the default model. */
  function FallbackModelFor(providers: seq<Provider>, defaultModel: string): string {
    if OpenAI in providers then "gpt-4o-mini" else defaultModel
  }

  /** RouterConfig: every attribute is set once by the constructor. */
  class RouterConfig {
    const availableProviders: seq<Provider>
    const models: seq<ModelEntry>
    const defaultModel: string
    const fallbackModel: string

    ghost predicate Valid() {
      && models == Catalog()
      && InProbeOrder(availableProviders)
      && defaultModel == DefaultModelFor(availableProviders)
      && fallbackModel == FallbackModelFor(availableProviders, defaultModel)
    }

    constructor (env: Environment)
      ensures Valid()
      ensures forall p :: p in availableProviders <==> KeyPresent(env, p)
    {
      var providers := DetectAvailableProviders(env);
      availableProviders := providers;
      models := Catalog();
      defaultModel := DefaultModelFor(providers);
      fallbackModel := FallbackModelFor(providers, DefaultModelFor(providers));
    }

    /** What `get_available_models` returns. */
    function AvailableModels(): seq<ModelEntry> {
      ModelsOf(models, availableProviders)
    }

    /** `get_available_models`: copy each model whose provider is available. */
    method GetAvailableModels() returns (available: seq<ModelEntry>)
      ensures available == AvailableModels()
    {
      available := [];
      var i := 0;
      while i < |models|
        invariant 0 <= i <= |models|
        invariant available + ModelsOf(models[i..], availableProviders) == AvailableModels()
      {
        assert models[i..][1..] == models[i + 1..];
        if models[i].config.provider in availableProviders {
          available := available + [models[i]];
        }
        i := i + 1;
      }
    }

    /** `is_provider_available`. */
    predicate IsProviderAvailable(p: Provider) {
      p in availableProviders
    }
  }

  // ---------------------------------------------------------------------
  // Properties of the catalog and the derived choices
  // ---------------------------------------------------------------------

  /** The provider of each entry, in order. */
  function ProvidersOf(entries: seq<ModelEntry>): (r: seq<Provider>)
    ensures |r| == |entries|
    ensures forall i :: 0 <= i < |entries| ==> r[i] == entries[i].config.provider
  {
    seq(|entries|, i requires 0 <= i < |entries| => entries[i].config.provider)
  }

  predicate DistinctNames(entries: seq<ModelEntry>) {
    forall i, j :: 0 <= i < j < |entries| ==> entries[i].name != entries[j].name
  }

  /** The catalog holds five models under five distinct names. */
  lemma CatalogNamesDistinct()
    ensures |Catalog()| == 5
    ensures DistinctNames(Catalog())
  {
    var c := Catalog();
    // Each pair differs in length or in one character.
    assert |c[0].name| == 11 && |c[1].name| == 5 && |c[2].name| == 14 && |c[3].name| == 17 && |c[4].name| == 14;
    assert c[2].name[0] == 'c' && c[4].name[0] == 'g';
  }

  /** Costs are non-negative and context sizes positive. */
  lemma CatalogLimitsPositive()
    ensures forall e :: e in Catalog() ==> e.config.costPer1kTokens >= 0.0 && e.config.maxTokens > 0
  {
  }

  /** Every provider has at least one model in the catalog. */
  lemma CatalogCoversProviders()
    ensures forall p :: p in ProvidersOf(Catalog())
  {
    var c := Catalog();
    forall p ensures p in ProvidersOf(c) {
      var i := match p case OpenAI => 0 case Anthropic => 2 case Google => 4;
      assert ProvidersOf(c)[i] == p;
    }
  }

  /** Available and unavailable models together are the whole catalog. */
  lemma {:induction false} ModelsPartition(entries: seq<ModelEntry>, providers: seq<Provider>)
    ensures |ModelsOf(entries, providers)| + |ModelsWithout(entries, providers)| == |entries|
  {
    if entries != [] {
      ModelsPartition(entries[1..], providers);
    }
  }

  /** Whenever some provider has a key, the default model is one of its models. */
  lemma DefaultModelAvailable(providers: seq<Provider>)
    requires providers != []
    ensures DefaultModelFor(providers) in Names(ModelsOf(Catalog(), providers))
  {
    var c := Catalog();
    var e;
    if Anthropic in providers {
      e := c[2];
    } else if OpenAI in providers {
      e := c[0];
    } else {
      assert providers[0] == Google;
      e := c[4];
    }
    assert e in ModelsOf(c, providers);
  }

  /** Whenever some provider has a key, the fallback model is one of its models too. */
  lemma FallbackModelAvailable(providers: seq<Provider>)
    requires providers != []
    ensures FallbackModelFor(providers, DefaultModelFor(providers)) in Names(ModelsOf(Catalog(), providers))
  {
    DefaultModelAvailable(providers);
    var c := Catalog();
    if OpenAI in providers {
      assert c[0] in ModelsOf(c, providers);
    }
  }

  /** The default model is only ever a catalog model. */
  lemma DefaultModelInCatalog(providers: seq<Provider>)
    ensures DefaultModelFor(providers) in Names(Catalog())
  {
    var c := Catalog();
    assert c[0].name == "gpt-4o-mini" && c[2].name == "claude-3-haiku" && c[4].name == "gemini-1.5-pro";
  }

  lemma {:induction false} NoProvidersNoModels(entries: seq<ModelEntry>)
    ensures ModelsOf(entries, []) == []
  {
    if entries != [] {
      NoProvidersNoModels(entries[1..]);
    }
  }

  /** Some model is available exactly when some provider is. */
  lemma AvailableIffProvider(providers: seq<Provider>)
    ensures ModelsOf(Catalog(), providers) == [] <==> providers == []
  {
    if providers != [] {
      DefaultModelAvailable(providers);
    } else {
      NoProvidersNoModels(Catalog());
    }
  }

  /** With only a Google key, Gemini is the one usable model. */
  lemma OnlyGeminiOnGoogle()
    ensures Names(ModelsOf(Catalog(), [Google])) == ["gemini-1.5-pro"]
  {
  }

  lemma RateOfGpt4()
    ensures Lookup(Catalog(), "gpt-4") == Some(Catalog()[1].config)
  {
  }

  lemma RateOfGemini()
    ensures Lookup(Catalog(), "gemini-1.5-pro") == Some(Catalog()[4].config)
  {
  }

  lemma UnknownModelHasNoRate(name: string)
    requires name !in Names(Catalog())
    ensures Lookup(Catalog(), name) == None
  {
  }

  /** The name used for the unknown-model example is not in the catalog. */
  lemma NotAModelIsUnknown()
    ensures "not-a-model" !in Names(Catalog())
  {
  }

  /** The usable models keep their catalog order. */
  lemma {:induction false} ModelsOfKeepsOrder(entries: seq<ModelEntry>, providers: seq<Provider>)
    ensures IsSubsequence(Names(ModelsOf(entries, providers)), Names(entries))
  {
    if entries != [] {
      var tail := entries[1..];
      ModelsOfKeepsOrder(tail, providers);
      assert Names(entries)[1..] == Names(tail);
      if entries[0].config.provider in providers {
        assert Names(ModelsOf(entries, providers)) == [entries[0].name] + Names(ModelsOf(tail, providers));
      }
    }
  }
}
