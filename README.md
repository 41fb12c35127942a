# RouterLLM — a Dafny model of the routing core

RouterLLM is a small HTTP service that picks a large-language-model vendor
(OpenAI, Anthropic or Google) for each chat message, calls it, and keeps
usage counters. This project models its core in Dafny and proves properties
of that model:

- **Catalog and configuration** (`config.dfy`, module `Config`): the five
  model descriptors in their source order, the providers detected from the
  environment's API-key variables, the default and fallback models, and the
  `RouterConfig` object with the models whose provider has a key.
- **Routing** (`router.dfy`, module `Router`): the rule cascade of
  `route_request` (code keywords, then short messages with a simple-question
  phrase, then long texts, then creative keywords, then the general case),
  the filtering of each preference list by the usable models, and the
  fallbacks to the default model and to the first usable model.
- **Dispatch and accounting** (`router.dfy`): the `LLMRouter` class, whose
  `CallModel` rejects an unknown model, calls the provider adapter, replaces
  any provider failure by the degraded warning reply, and counts the request.
  The class also prices a call with `CalculateCost` and snapshots its counters
  with `GetStats`.
- **Provider adapters** (`adapters.dfy`, module `Adapters`): key checks
  against each vendor's placeholder, the HTTP request each vendor receives
  (URL, headers, JSON payload), and how the reply's text and token usage are
  read back. The network is a function parameter `Transport`.
- **HTTP endpoints** (`server.dfy`, module `Server`): `/chat` with its
  forced-model option and its 500 error path, `/models`, `/status` and `/`.
- **Support modules**: `text.dfy` (`Text`: Python's `lower()`, substring
  test, `split()` word count), `http.dfy` (`Http`: JSON values and field
  access) and `wrappers.dfy` (`Option`, `Result`).

`RouterProperties` (in `router.dfy`) collects the lemmas about routing,
dispatch and cost.

Behaviour of the code that a quick reading may miss:
- A message under 100 characters with no code keyword and no
  simple-question phrase stops at the short-message rule with no
  preferences. It then gets the default model; it does not fall through to
  the creative check (`ShortMessagesStopAtRuleTwo`, `ShortUnmatchedGetsDefault`).
- The long-text rule needs more than 1000 characters; exactly 1000 does not
  qualify (`LongRuleIsStrict`).
- No cumulative cost or average response time is ever accumulated. Both
  counters stay at their initial 0.0 (`RecordCountsOnce`, `MostUsedOnceRequested`).
- The "error" sentinel chosen when no provider has a key is never priced:
  `call_model` rejects it as an unknown model, so `/chat` answers with a 500
  (`RoutedModelIsCallable`).
- An unknown model is priced at a default rate of 0.001 per 1000 tokens
  (`CostExamples`).
- A provider reply whose status is not exactly 200 is treated as a failure,
  including other 2xx codes (`ReadReply`).

## Model

| member | source | states |
|---|---|---|
| Text.LowerChar | router.py:45 | lowering leaves no upper-case letter and changes a character exactly when it is upper case |
| Text.Lower | router.py:45 | `lower()` keeps the length; each character is lowered or kept |
| Text.LowerIdempotent | router.py:45 | lowering an already lowered message changes nothing |
| Text.UpperAscii | main.py:113 | `upper()` of a provider name keeps the length and leaves no lower-case ASCII letter |
| Text.ContainsIffOccurs | router.py:62 | the recursive substring test holds exactly when the keyword occurs at some index |
| Text.ContainsInside | router.py:62 | a keyword found in a text is still found in any text that embeds it |
| Text.WordCount | router.py:136 | `len(s.split())` (also at router.py:261), the number of words `Split` returns; `Split` states that each word is non-empty and has no whitespace, and `SplitJoin` that words joined by single spaces are counted back exactly |
| Text.WordLength | router.py:136 | the first word ends at the first whitespace character or at the end |
| Text.Split | router.py:136 | `split()` yields only non-empty words with no whitespace |
| Text.SplitJoin | router.py:136 | splitting words joined by single spaces gives back exactly those words |
| Text.SplitSkipsSpace | router.py:136 | leading whitespace does not change the words |
| Text.WordLengthOfWord | router.py:136 | a word followed by whitespace or nothing has exactly its own length as first word |
| Http.FieldValueSpec | router.py:178-179 | a JSON object lookup finds a value exactly when the key is present, and the value is one stored under it |
| Http.Subscript | router.py:178 | indexing `[0]` of an array succeeds exactly when the array is non-empty; a key step succeeds only on an object |
| Http.At | router.py:178 | once a subscript in a chain has failed, every later one fails too |
| Http.FieldValueLast | router.py:178-179 | the last field with a key is the one read |
| Http.FieldValueAt | router.py:178-179 | a field with no later duplicate is the value read for its key |
| Config.Catalog | config.py:15-56 | the five descriptors in source order; `CatalogNamesDistinct`, `CatalogLimitsPositive` and `CatalogCoversProviders` state its distinct names, positive limits and coverage of every provider |
| Config.Names | config.py:15-56 | the model names, in catalog order |
| Config.Lookup | router.py:115-117 | `models.get(model)` finds a descriptor exactly when the name is in the catalog, and it is that name's descriptor |
| Config.ModelsOf | config.py:112-118 | the usable models are exactly the catalog models whose provider is available |
| Config.ModelsWithout | main.py:85 | the models left out are exactly those whose provider is not available |
| Config.DetectAvailableProviders | config.py:73-89 | a provider is detected exactly when its key variable is set and non-empty, in the order OpenAI, Anthropic, Google |
| Config.DefaultModelFor | config.py:91-102 | Anthropic's, else OpenAI's, else Google's model, else gpt-4o-mini; `DefaultModelAvailable` and `DefaultModelInCatalog` state that it is usable whenever some provider is configured and always a catalog model |
| Config.FallbackModelFor | config.py:104-110 | gpt-4o-mini when OpenAI is configured, else the default model; `FallbackModelAvailable` states that it is usable whenever some provider is configured |
| Config.RouterConfig.constructor | config.py:11-71 | the configuration holds the catalog, the detected providers and the default and fallback models derived from them |
| Config.RouterConfig.GetAvailableModels | config.py:112-118 | the loop returns exactly the models of available providers, in catalog order |
| Config.RouterConfig.IsProviderAvailable | config.py:120-122 | membership in the detected providers; by the constructor's contract and `DetectAvailableProviders`, a provider is available exactly when its key variable is set and non-empty |
| Config.CatalogNamesDistinct | config.py:15-56 | the catalog has five models with distinct names |
| Config.CatalogLimitsPositive | config.py:15-56 | every model has a non-negative rate and a positive token limit |
| Config.CatalogCoversProviders | config.py:15-56 | every provider has at least one model in the catalog |
| Config.ModelsPartition | config.py:112-118 | usable and unusable models together account for the whole catalog |
| Config.DefaultModelAvailable | config.py:91-102 | with some provider configured, the default model (Anthropic, else OpenAI, else Google) is usable |
| Config.DefaultModelInCatalog | config.py:91-102 | the default model is a catalog model even with no provider |
| Config.FallbackModelAvailable | config.py:104-110 | with some provider configured, the fallback model is usable |
| Config.ModelsOfKeepsOrder | config.py:112-118 | the usable models are listed in catalog order |
| Config.NoProvidersNoModels | config.py:112-118 | with no provider, no model is usable |
| Config.AvailableIffProvider | config.py:112-118 | some model is usable exactly when some provider is configured |
| Config.OnlyGeminiOnGoogle | config.py:112-118 | with only a Google key, Gemini is the one usable model |
| Config.RateOfGpt4 | config.py:24-31 | gpt-4 is found with its own descriptor |
| Config.RateOfGemini | config.py:48-55 | gemini-1.5-pro is found with its own descriptor |
| Config.UnknownModelHasNoRate | router.py:267-268 | every name outside the catalog has no descriptor |
| Config.NotAModelIsUnknown | router.py:267-268 | the name used in the cost example is not in the catalog |
| Adapters.KeyAccepted | router.py:149 | the key is set, non-empty and not the vendor's placeholder, the negation of the test at router.py:149, 188 and 228; `PlaceholdersRejected` states which placeholder each vendor refuses and `RejectedKeyMakesNoRequest` that a refused key makes no request |
| Adapters.ReadReply | router.py:174-177 | the decoded body is read exactly when the status is 200 and the body is JSON; otherwise no reply, another status and a non-JSON body each give their own error |
| Adapters.OpenAIModelName | router.py:158 | the API model is gpt-4 exactly for gpt-4, otherwise gpt-4o-mini |
| Adapters.OpenAIRequest | router.py:148-172 | a request is built exactly when the key is set, non-empty and not the placeholder, otherwise the key error; it goes to the chat-completions URL with the bearer key and the JSON content type |
| Adapters.AnthropicModelName | router.py:198 | the API model is the haiku version exactly for claude-3-haiku, otherwise the sonnet version |
| Adapters.AnthropicRequest | router.py:187-212 | as for OpenAI, with the Anthropic placeholder; it goes to the messages URL with the key header, the API version and the JSON content type |
| Adapters.GoogleRequest | router.py:227-253 | as for OpenAI, with the Google placeholder; the key travels in the URL and the only header is the JSON content type |
| Adapters.OpenAIExtract | router.py:177-179 | reads `choices[0].message.content` and `usage.total_tokens`; `OpenAIReadsTotalTokens` states that a well-formed vendor body gives back exactly its text and total |
| Adapters.AnthropicExtract | router.py:217-219 | reads `content[0].text` and the two usage counts; `AnthropicReadsTokenSum` states that a well-formed body gives back its text and input plus output tokens |
| Adapters.GoogleExtract | router.py:258-261 | reads `candidates[0].content.parts[0].text` and estimates tokens by words; `GoogleEstimatesTokens` states the result for a well-formed body |
| Adapters.CallOpenAI | router.py:144-181 | key check, request, status check, then extraction; `RejectedKeyMakesNoRequest` and `RouterProperties.OpenAICallSucceeds` state the rejected-key and the successful outcomes |
| Adapters.CallAnthropic | router.py:183-221 | as for OpenAI; `RejectedKeyMakesNoRequest` and `RouterProperties.AnthropicCallSucceeds` state the outcomes |
| Adapters.CallGoogle | router.py:223-263 | as for OpenAI; `RejectedKeyMakesNoRequest` and `RouterProperties.GoogleCallSucceeds` state the outcomes |
| Adapters.OpenAIReadsTotalTokens | router.py:177-181 | from a vendor reply body, the adapter reads the first choice's content and `usage.total_tokens` |
| Adapters.AnthropicReadsTokenSum | router.py:217-221 | from a vendor reply body, the adapter reads the first content text and input plus output tokens |
| Adapters.GoogleEstimatesTokens | router.py:258-263 | from a vendor reply body, the adapter reads the first part's text, with tokens estimated as the words of the message plus the words of the reply |
| Adapters.RejectedKeyMakesNoRequest | router.py:144-229 | for each vendor, a missing, empty or placeholder key yields the key error and no request |
| Adapters.PlaceholdersRejected | router.py:144-229 | each vendor rejects its own placeholder and accepts each of the other two vendors' placeholders |
| Adapters.OpenAIPayload | router.py:160-165 | the payload carries the mapped model, the user message, the token limit and the temperature |
| Adapters.AnthropicPayload | router.py:200-205 | the payload carries the mapped model, the token limit, the temperature and the user message |
| Adapters.GooglePayload | router.py:238-246 | the payload carries the message as the one text part, and the token limit and temperature as generation settings |
| Router.Bump | router.py:140 | `model_usage[model] = get(model, 0) + 1` on an ordered list of entries; `BumpCounts`, `BumpKeys` and `BumpEntries` state its effect |
| Router.Record | router.py:138-140 | one more request and one more use of the model; `RecordKeepsInvariant` and `RouterProperties.RecordCountsOnce` state its effect |
| Router.BumpCounts | router.py:139-140 | counting a model adds one to it, leaves every other model's count alone, and adds one to the total |
| Router.UsageKeys | router.py:140 | the keys of `model_usage` in insertion order, one per entry |
| Router.BumpKeys | router.py:140 | a model counted for the first time is appended; otherwise the keys are unchanged |
| Router.BumpEntries | router.py:140 | counting introduces no entry except the counted model's, and keeps every other model's entry |
| Router.RecordKeepsInvariant | router.py:138-140 | after counting a catalog model, counts stay positive, keyed by distinct catalog models, and sum to the request total |
| Router.BumpCountAt | router.py:140 | a newly created entry has a positive count |
| Router.FirstMaxIndex | router.py:276 | the index of the first entry with the largest count |
| Router.MostUsedModel | router.py:276 | `max(model_usage, key=model_usage.get)`, or None on an empty map; `MostUsedModelSpec` states that it is None exactly when nothing was counted and otherwise the first key with the largest count |
| Router.MostUsedModelSpec | router.py:276 | the most used model is absent exactly when nothing was counted; otherwise it is the first entry with the largest count |
| Router.RuleFor | router.py:60-91 | the rule cascade; the `RouterProperties` lemmas `CodeRuleAnyLength`, `ShortMessagesStopAtRuleTwo`, `LongRuleIsStrict`, `MidLengthRules` and `RuleIgnoresCase` state which rule each message gets |
| Router.Preferences | router.py:60-91 | each rule's preference list; `RouterProperties.PreferencesAreCatalogModels` states that each names distinct catalog models |
| Router.Keep | router.py:64 | a preference survives exactly when its model is usable |
| Router.KeepIsSubsequence | router.py:64 | the filtered preferences keep their order |
| Router.KeepNone | router.py:64 | no preference survives when none is usable |
| Router.LLMRouter.constructor | router.py:18-25 | a new router starts with all counters at zero |
| Router.LLMRouter.GetAvailableModels | router.py:27-38 | every catalog model is listed, marked available exactly when its provider has a key |
| Router.ProviderCall | router.py:121-127 | dispatch on the model's provider, with that provider's key read from the environment; the `RouterProperties` lemmas `PlaceholderKeyDegrades`, `UpstreamErrorDegrades` and the three `CallSucceeds` lemmas state its outcomes |
| Router.Degraded | router.py:131-136 | the warning naming the model, with twice the message's word count; `RouterProperties.DegradedTextNamesModel` states that the warning names the model |
| Router.ModelReply | router.py:119-136 | the adapter's reply, or on any failure the degraded warning with twice the message's words as tokens; same lemmas |
| Router.LLMRouter.RouteRequest | router.py:40-109 | with no usable model the decision is the "error" sentinel; otherwise the model chosen is usable; `RouterProperties.RouteSelectsAvailableModel` and `RouteIsPreferenceOrDefault` state the converse and which model is chosen |
| Router.LLMRouter.CostRate | router.py:267-268 | the catalog rate of the model, or 0.001 for an unknown model; `RouterProperties.RateNonNegative` and `CostExamples` state that it is never negative and its value for gpt-4, Gemini and an unknown name |
| Router.LLMRouter.CalculateCost | router.py:265-269 | tokens over 1000 times the model's rate, 0.001 for an unknown model; `RouterProperties.CostProperties`, `CostExamples` and `RateNonNegative` state its properties |
| Router.LLMRouter.GetStats | router.py:271-277 | the counters, the timestamp and the most used model; `Router.MostUsedModelSpec` and `RouterProperties.MostUsedOnceRequested` state which model that is and when there is one |
| Router.LLMRouter.CallModel | router.py:111-142 | an unknown model is an error that changes nothing; otherwise the adapter's reply, or the degraded reply on failure, is returned and the request is counted once |
| Router.AvailableByName | config.py:112-118 | with distinct names, a model is usable by name exactly when its provider is available |
| RouterProperties.CodeRuleAnyLength | router.py:60-65 | a code keyword selects the premium order at any length |
| RouterProperties.ShortMessagesStopAtRuleTwo | router.py:67-73 | a short message takes the fast order with a simple phrase, and no preferences without one |
| RouterProperties.LongRuleIsStrict | router.py:75-79 | the long-text order applies exactly above 1000 characters |
| RouterProperties.MidLengthRules | router.py:81-91 | between 100 and 1000 characters, a creative keyword gives the creative order, otherwise the balanced order |
| RouterProperties.RuleIgnoresCase | router.py:45 | messages that agree after lowering get the same rule |
| RouterProperties.PreferencesAreCatalogModels | router.py:60-91 | every preference list names distinct catalog models |
| RouterProperties.ErrorIsNotAModel | router.py:49-51 | the "error" sentinel is not a catalog model |
| RouterProperties.RouteSelectsAvailableModel | router.py:40-109 | the sentinel is returned exactly when no provider is configured; otherwise the choice is a usable model |
| RouterProperties.RouteIsPreferenceOrDefault | router.py:93-109 | the choice is the first usable preference, else the default model; the later fallbacks are never reached |
| RouterProperties.ShortUnmatchedGetsDefault | router.py:67-101 | a short message with no code keyword and no simple phrase gets the default model |
| RouterProperties.CodeOnGoogleOnlyUsesDefault | router.py:60-101 | with only a Google key, a code question gets Gemini as the default |
| RouterProperties.DegradedTextNamesModel | router.py:135 | the degraded warning names the model |
| RouterProperties.PlaceholderKeyDegrades | router.py:131-136 | a placeholder key counts as detected but yields the degraded reply with twice the message's words as tokens |
| RouterProperties.UpstreamErrorDegrades | router.py:131-136 | any non-200 status yields the degraded reply |
| RouterProperties.OpenAICallSucceeds | router.py:144-181 | with a real key and a well-formed reply, the call returns that reply's text and total tokens |
| RouterProperties.AnthropicCallSucceeds | router.py:183-221 | with a real key and a well-formed reply, the call returns the text and input plus output tokens |
| RouterProperties.GoogleCallSucceeds | router.py:223-263 | with a real key and a well-formed reply, the call returns the text and the word-count estimate |
| RouterProperties.RecordCountsOnce | router.py:138-140 | a counted request adds one to the total and to its model only; cost and time counters are untouched |
| RouterProperties.MostUsedOnceRequested | router.py:271-277 | the snapshot has a most used model exactly when some request was counted; the cost total is 0 |
| RouterProperties.RateNonNegative | router.py:265-269 | every rate, including the default rate for unknown models, is non-negative |
| RouterProperties.CostProperties | router.py:265-269 | the cost of zero tokens is zero; cost grows with tokens and is additive in them |
| RouterProperties.CostExamples | router.py:265-269 | 1000 gpt-4 tokens cost 0.03, 2000 Gemini tokens cost 0.0025, and 500 tokens of an unknown model cost 0.0005 |
| Server.Selection | main.py:135-142 | a forced, non-empty model name is used as given |
| Server.Chat | main.py:128-170 | an unknown model gives a 500 "Erro interno" and changes no counter; otherwise the answer carries the reply, the model, the reasoning, its priced cost and the elapsed time, and the request is counted |
| Server.RoutedModelIsCallable | main.py:138-149 | without a forced model, the call fails exactly when no provider is configured |
| Server.ForcedUnknownModelFails | main.py:135-149 | a forced name outside the catalog is used as given and is rejected by the call |
| Server.MissingNames | main.py:85 | a model is missing exactly when it is a catalog model that is not usable |
| Server.MissingKeepsOrder | main.py:85 | the missing models are listed in catalog order |
| Server.StatusOf | main.py:78-83 | a model's entry carries its descriptor, whether it is usable, and the matching label |
| Server.GetModels | main.py:71-95 | every catalog model is listed, in order, with its descriptor and availability label; the summary counts total and usable models and lists the missing ones |
| Server.MissingKeysComplementConfigured | main.py:85-93 | the missing models are exactly the unusable ones, and usable plus missing equals the total |
| Server.MissingIsWithout | main.py:85 | with distinct names, the missing names are the names of the models whose provider is not available |
| Server.NamesFilterAgree | main.py:85 | the filter depends only on which names count as usable |
| Server.ModelNamesOf | main.py:107-108 | a provider's model list holds exactly the catalog names of its models |
| Server.GetApiStatus | main.py:97-126 | each provider is reported with availability, models and key variable; the summary counts configured providers and says whether any exists |
| Server.EnvVarIsKeyVariable | main.py:113 | the key variable shown per provider is the one the configuration reads |
| Server.EveryProviderListsModels | main.py:105-108 | every provider's model list is non-empty |
| Server.Root | main.py:54-69 | the welcome payload; `RootOnlineIffProvider` states when it reports "online" |
| Server.RootOnlineIffProvider | main.py:54-69 | the service says "online" exactly when some provider has a key, and then the default model is among the usable ones |

## Left out

- Network I/O: each vendor endpoint is the `Transport` function parameter. Timeouts, connection errors and exceptions raised by the HTTP client become `TransportFailure`.
- The environment, including the `.env` file, is a map from variable names to values. The configuration reads one such map when it is built (provider detection, config.py:78-87). Each provider call reads the key from the map it is given (router.py:148, 187, 227). As in the source, where the environment can change between these reads, nothing requires the two maps to agree.
- Concurrency and `async`: calls are sequential. The 0.5-second sleep before a degraded reply is not modelled.
- The clock: the elapsed time and the timestamp of `get_stats` are parameters. Logging is not modelled.
- The `/stats` endpoint only returns `get_stats`, which `Router.LLMRouter.GetStats` models.
- Lowering covers ASCII and Latin-1 capitals only; other Unicode case mappings leave a character unchanged. Whitespace for `split()` is Python's `isspace` set.
- Floating point: rates, temperatures and costs are exact reals, so no rounding is modelled.
- Adapters.OpenAIExtract: a non-integer `total_tokens` or non-string content is treated as a malformed reply, which degrades. The source would pass such values through.
- Adapters.AnthropicExtract: non-integer token counts or non-string text are treated as a malformed reply, for the same reason.
- Pydantic validation of the request body is not modelled: a request arrives already parsed, and `max_tokens` is always an integer.
- The unused `user_id`, the informational `routing_rules`, and the `max_retries` and `timeout_seconds` settings are not modelled.
- The "provider not implemented" branch of `call_model` cannot be reached because the provider type has three values.
- `metrics.py`, the static JavaScript pages, and the check, test and restart scripts are outside this model.
