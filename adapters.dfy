/**
 * The three vendor adapters of router.py (`_call_openai`, `_call_anthropic`,
 * `_call_google`): reject a missing or placeholder key, build the headers and
 * the JSON payload, hand the request to the transport, and read the reply's
 * text and token usage. Every failure is an exception in the source and an
 * `Err` here.
 */
module Adapters {
  import opened Wrappers
  import opened Text
  import opened Http

  /** Why an adapter call failed; the router treats every kind the same way. */
  datatype CallError =
    | KeyNotConfigured
    | UpstreamError(status: int, body: string)
    | NoResponse
    | MalformedReply

  /** The provider's own answer: completion text and the tokens it accounts. */
  datatype Completion = Completion(text: string, tokens: int)

  /** The transport: the reply the network gives for one POST. */
  type Transport = HttpRequest -> HttpReply

  /** `not api_key or api_key == placeholder` rejects the key. */
  predicate KeyAccepted(key: Option<string>, placeholder: string) {
    key.Some? && key.value != "" && key.value != placeholder
  }

  const OpenAIPlaceholder: string := "sk-..."
  const AnthropicPlaceholder: string := "sk-ant-..."
  const GooglePlaceholder: string := "..."

  const JsonContentType: (string, string) := ("Content-Type", "application/json")

  /** The message as the single user turn of a chat. */
  function UserTurn(message: string): Json {
    JObj([("role", JStr("user")), ("content", JStr(message))])
  }

  /** Status, body and field checks shared by the three readers. */
  function ReadReply(reply: HttpReply): (r: Result<Json, CallError>)
    ensures r.Ok? <==> reply.Response? && reply.status == 200 && reply.json.Some?
    ensures r.Ok? ==> r.value == reply.json.value
    ensures reply.TransportFailure? ==> r == Err(NoResponse)
    ensures reply.Response? && reply.status != 200 ==> r == Err(UpstreamError(reply.status, reply.text))
    ensures reply.Response? && reply.status == 200 && reply.json.None? ==> r == Err(MalformedReply)
  {
    match reply
    case TransportFailure => Err(NoResponse)
    case Response(status, text, json) =>
      if status != 200 then Err(UpstreamError(status, text))
      else if json.None? then Err(MalformedReply)
      else Ok(json.value)
  }

  // ---------------------------------------------------------------------
  // OpenAI
  // ---------------------------------------------------------------------

  /** The API name: "gpt-4" stays, every other model becomes "gpt-4o-mini". */
  function OpenAIModelName(model: string): (r: string)
    ensures r == "gpt-4" || r == "gpt-4o-mini"
    ensures r == "gpt-4" <==> model == "gpt-4"
  {
    if model == "gpt-4" then "gpt-4" else "gpt-4o-mini"
  }

  /** The chat-completions payload. */
  function OpenAIBody(model: string, message: string, maxTokens: int, temperature: real): Json {
    JObj([ ("model", JStr(OpenAIModelName(model))),
           ("messages", JArr([UserTurn(message)])),
           ("max_tokens", JInt(maxTokens)),
           ("temperature", JFloat(temperature)) ])
  }

  const OpenAIUrl: string := "https://api.openai.com/v1/chat/completions"

  function OpenAIRequest(model: string, message: string, maxTokens: int, temperature: real, key: Option<string>)
    : (r: Result<HttpRequest, CallError>)
    ensures r.Err? <==> !KeyAccepted(key, OpenAIPlaceholder)
    ensures r.Err? ==> r.error == KeyNotConfigured
    ensures r.Ok? ==> && r.value.url == OpenAIUrl
                      && ("Authorization", "Bearer " + key.value) in r.value.headers
                      && JsonContentType in r.value.headers
                      && r.value.body == OpenAIBody(model, message, maxTokens, temperature)
  {
    if !KeyAccepted(key, OpenAIPlaceholder) then Err(KeyNotConfigured)
    else
      Ok(HttpRequest(OpenAIUrl, [("Authorization", "Bearer " + key.value), JsonContentType],
                     OpenAIBody(model, message, maxTokens, temperature)))
  }

  /** `data["choices"][0]["message"]["content"]` and `data["usage"]["total_tokens"]`. */
  function OpenAIExtract(data: Json): Result<Completion, CallError> {
    var content := At(At(At(At(Some(data), Key("choices")), First), Key("message")), Key("content"));
    var total := At(At(Some(data), Key("usage")), Key("total_tokens"));
    if content.Some? && content.value.JStr? && total.Some? && total.value.JInt?
    then Ok(Completion(content.value.s, total.value.i))
    else Err(MalformedReply)
  }

  /** `_call_openai`: one POST, or none when the key is rejected. */
  function CallOpenAI(model: string, message: string, maxTokens: int, temperature: real,
                      key: Option<string>, transport: Transport): Result<Completion, CallError>
  {
    match OpenAIRequest(model, message, maxTokens, temperature, key)
    case Err(e) => Err(e)
    case Ok(request) =>
      match ReadReply(transport(request))
      case Err(e) => Err(e)
      case Ok(data) => OpenAIExtract(data)
  }

  // ---------------------------------------------------------------------
  // Anthropic
  // ---------------------------------------------------------------------

  /** The API name: "claude-3-haiku" gets its dated name, every other model the Sonnet one. */
  function AnthropicModelName(model: string): (r: string)
    ensures r == "claude-3-haiku-20240307" || r == "claude-3-5-sonnet-20241022"
    ensures r == "claude-3-haiku-20240307" <==> model == "claude-3-haiku"
  {
    if model == "claude-3-haiku" then "claude-3-haiku-20240307" else "claude-3-5-sonnet-20241022"
  }

  /** The messages-API payload. */
  function AnthropicBody(model: string, message: string, maxTokens: int, temperature: real): Json {
    JObj([ ("model", JStr(AnthropicModelName(model))),
           ("max_tokens", JInt(maxTokens)),
           ("temperature", JFloat(temperature)),
           ("messages", JArr([UserTurn(message)])) ])
  }

  const AnthropicUrl: string := "https://api.anthropic.com/v1/messages"

  function AnthropicRequest(model: string, message: string, maxTokens: int, temperature: real, key: Option<string>)
    : (r: Result<HttpRequest, CallError>)
    ensures r.Err? <==> !KeyAccepted(key, AnthropicPlaceholder)
    ensures r.Err? ==> r.error == KeyNotConfigured
    ensures r.Ok? ==> && r.value.url == AnthropicUrl
                      && ("x-api-key", key.value) in r.value.headers
                      && ("anthropic-version", "2023-06-01") in r.value.headers
                      && JsonContentType in r.value.headers
                      && r.value.body == AnthropicBody(model, message, maxTokens, temperature)
  {
    if !KeyAccepted(key, AnthropicPlaceholder) then Err(KeyNotConfigured)
    else
      Ok(HttpRequest(AnthropicUrl, [("x-api-key", key.value), JsonContentType, ("anthropic-version", "2023-06-01")],
                     AnthropicBody(model, message, maxTokens, temperature)))
  }

  /** `data["content"][0]["text"]` and input plus output tokens from `data["usage"]`. */
  function AnthropicExtract(data: Json): Result<Completion, CallError> {
    var content := At(At(At(Some(data), Key("content")), First), Key("text"));
    var input := At(At(Some(data), Key("usage")), Key("input_tokens"));
    var output := At(At(Some(data), Key("usage")), Key("output_tokens"));
    if content.Some? && content.value.JStr? && input.Some? && input.value.JInt? && output.Some? && output.value.JInt?
    then Ok(Completion(content.value.s, input.value.i + output.value.i))
    else Err(MalformedReply)
  }

  /** `_call_anthropic`. */
  function CallAnthropic(model: string, message: string, maxTokens: int, temperature: real,
                         key: Option<string>, transport: Transport): Result<Completion, CallError>
  {
    match AnthropicRequest(model, message, maxTokens, temperature, key)
    case Err(e) => Err(e)
    case Ok(request) =>
      match ReadReply(transport(request))
      case Err(e) => Err(e)
      case Ok(data) => AnthropicExtract(data)
  }

  // ---------------------------------------------------------------------
  // Google
  // ---------------------------------------------------------------------

  /** Google always calls "gemini-1.5-pro", whichever model was asked for. */
  const GoogleModelName: string := "gemini-1.5-pro"

  /** The generateContent payload. */
  function GoogleBody(message: string, maxTokens: int, temperature: real): Json {
    JObj([ ("contents", JArr([JObj([("parts", JArr([JObj([("text", JStr(message))])]))])])),
           ("generationConfig", JObj([ ("maxOutputTokens", JInt(maxTokens)),
                                       ("temperature", JFloat(temperature)) ])) ])
  }

  /** The key travels in the query string, not in a header. */
  function GoogleUrl(key: string): string {
    "https://generativelanguage.googleapis.com/v1beta/models/" + GoogleModelName + ":generateContent?key=" + key
  }

  function GoogleRequest(message: string, maxTokens: int, temperature: real, key: Option<string>)
    : (r: Result<HttpRequest, CallError>)
    ensures r.Err? <==> !KeyAccepted(key, GooglePlaceholder)
    ensures r.Err? ==> r.error == KeyNotConfigured
    ensures r.Ok? ==> && r.value.url == GoogleUrl(key.value)
                      && r.value.headers == [JsonContentType]
                      && r.value.body == GoogleBody(message, maxTokens, temperature)
  {
    if !KeyAccepted(key, GooglePlaceholder) then Err(KeyNotConfigured)
    else Ok(HttpRequest(GoogleUrl(key.value), [JsonContentType], GoogleBody(message, maxTokens, temperature)))
  }

  /**
   * `data["candidates"][0]["content"]["parts"][0]["text"]`; Google reports no
   * usage, so tokens are the words of the message plus those of the answer.
   */
  function GoogleExtract(message: string, data: Json): Result<Completion, CallError> {
    var candidate := At(At(Some(data), Key("candidates")), First);
    var text := At(At(At(At(candidate, Key("content")), Key("parts")), First), Key("text"));
    if text.Some? && text.value.JStr?
    then Ok(Completion(text.value.s, WordCount(message) + WordCount(text.value.s)))
    else Err(MalformedReply)
  }

  /** `_call_google`. */
  function CallGoogle(message: string, maxTokens: int, temperature: real,
                      key: Option<string>, transport: Transport): Result<Completion, CallError>
  {
    match GoogleRequest(message, maxTokens, temperature, key)
    case Err(e) => Err(e)
    case Ok(request) =>
      match ReadReply(transport(request))
      case Err(e) => Err(e)
      case Ok(data) => GoogleExtract(message, data)
  }

  // ---------------------------------------------------------------------
  // Replies as the vendors send them, and what the adapters read from them
  // ---------------------------------------------------------------------

  /** A chat-completions reply carrying `text` and its usage block. */
  function OpenAIReplyBody(text: string, promptTokens: int, completionTokens: int, totalTokens: int): Json {
    JObj([ ("id", JStr("chatcmpl")),
           ("choices", JArr([JObj([ ("index", JInt(0)),
                                    ("message", JObj([("role", JStr("assistant")), ("content", JStr(text))])) ])])),
           ("usage", JObj([ ("prompt_tokens", JInt(promptTokens)),
                            ("completion_tokens", JInt(completionTokens)),
                            ("total_tokens", JInt(totalTokens)) ])) ])
  }

  /** A messages-API reply carrying `text` and its usage block. */
  function AnthropicReplyBody(text: string, inputTokens: int, outputTokens: int): Json {
    JObj([ ("content", JArr([JObj([("type", JStr("text")), ("text", JStr(text))])])),
           ("usage", JObj([("input_tokens", JInt(inputTokens)), ("output_tokens", JInt(outputTokens))])) ])
  }

  /** A generateContent reply carrying `text`. */
  function GoogleReplyBody(text: string): Json {
    JObj([("candidates", JArr([JObj([("content", JObj([("parts", JArr([JObj([("text", JStr(text))])]))]))])]))])
  }

  /** OpenAI: the text comes back, and the usage is `total_tokens`, not a sum of the parts. */
  lemma OpenAIReadsTotalTokens(text: string, p: int, c: int, total: int)
    ensures OpenAIExtract(OpenAIReplyBody(text, p, c, total))
            == Ok(Completion(text, total))
  {
    var body := OpenAIReplyBody(text, p, c, total);
    var choice := body.fields[1].1.items[0];
    var usage := body.fields[2].1;
    FieldValueAt(body.fields, 1);
    FieldValueAt(choice.fields, 1);
    FieldValueAt(choice.fields[1].1.fields, 1);
    FieldValueAt(body.fields, 2);
    FieldValueAt(usage.fields, 2);
  }

  /** Anthropic: the text comes back, and the usage is input plus output tokens. */
  lemma AnthropicReadsTokenSum(text: string, input: int, output: int)
    ensures AnthropicExtract(AnthropicReplyBody(text, input, output))
            == Ok(Completion(text, input + output))
  {
    var body := AnthropicReplyBody(text, input, output);
    var usage := body.fields[1].1;
    FieldValueAt(body.fields, 0);
    FieldValueAt(body.fields[0].1.items[0].fields, 1);
    FieldValueAt(body.fields, 1);
    FieldValueAt(usage.fields, 0);
    FieldValueAt(usage.fields, 1);
  }

  /** Google: the text comes back, and the usage is the words of question and answer. */
  lemma GoogleEstimatesTokens(message: string, text: string)
    ensures GoogleExtract(message, GoogleReplyBody(text))
            == Ok(Completion(text, WordCount(message) + WordCount(text)))
  {
    var body := GoogleReplyBody(text);
    var candidate := At(At(Some(body), Key("candidates")), First);
    assert candidate == Some(body.fields[0].1.items[0]);
    var part := At(At(At(candidate, Key("content")), Key("parts")), First);
    assert part == Some(JObj([("text", JStr(text))]));
  }

  /** A rejected key fails before any request exists, whatever the network would do. */
  lemma RejectedKeyMakesNoRequest(model: string, message: string, maxTokens: int, temperature: real,
                                   key: Option<string>, transport: Transport)
    ensures !KeyAccepted(key, OpenAIPlaceholder)
            ==> CallOpenAI(model, message, maxTokens, temperature, key, transport) == Err(KeyNotConfigured)
    ensures !KeyAccepted(key, AnthropicPlaceholder)
            ==> CallAnthropic(model, message, maxTokens, temperature, key, transport) == Err(KeyNotConfigured)
    ensures !KeyAccepted(key, GooglePlaceholder)
            ==> CallGoogle(message, maxTokens, temperature, key, transport) == Err(KeyNotConfigured)
  {
  }

  /** The placeholder keys are exactly the non-empty values each adapter still refuses. */
  lemma PlaceholdersRejected()
    ensures !KeyAccepted(Some(OpenAIPlaceholder), OpenAIPlaceholder)
    ensures !KeyAccepted(Some(AnthropicPlaceholder), AnthropicPlaceholder)
    ensures !KeyAccepted(Some(GooglePlaceholder), GooglePlaceholder)
    ensures KeyAccepted(Some(AnthropicPlaceholder), OpenAIPlaceholder)
    ensures KeyAccepted(Some(GooglePlaceholder), OpenAIPlaceholder)
    ensures KeyAccepted(Some(OpenAIPlaceholder), AnthropicPlaceholder)
    ensures KeyAccepted(Some(GooglePlaceholder), AnthropicPlaceholder)
    ensures KeyAccepted(Some(OpenAIPlaceholder), GooglePlaceholder)
    ensures KeyAccepted(Some(AnthropicPlaceholder), GooglePlaceholder)
  {
  }

  /** The OpenAI payload names the mapped model and carries the message, the token limit and the temperature. */
  lemma OpenAIPayload(model: string, message: string, maxTokens: int, temperature: real)
    ensures var b := OpenAIBody(model, message, maxTokens, temperature);
            && At(Some(b), Key("model")) == Some(JStr(OpenAIModelName(model)))
            && At(At(At(Some(b), Key("messages")), First), Key("content")) == Some(JStr(message))
            && At(Some(b), Key("max_tokens")) == Some(JInt(maxTokens))
            && At(Some(b), Key("temperature")) == Some(JFloat(temperature))
  {
    var b := OpenAIBody(model, message, maxTokens, temperature);
    FieldValueAt(b.fields, 0);
    FieldValueAt(b.fields, 1);
    FieldValueAt(b.fields, 2);
    FieldValueAt(b.fields, 3);
    FieldValueAt(UserTurn(message).fields, 1);
  }

  /** The Anthropic payload names the mapped model and carries the message, the token limit and the temperature. */
  lemma AnthropicPayload(model: string, message: string, maxTokens: int, temperature: real)
    ensures var b := AnthropicBody(model, message, maxTokens, temperature);
            && At(Some(b), Key("model")) == Some(JStr(AnthropicModelName(model)))
            && At(At(At(Some(b), Key("messages")), First), Key("content")) == Some(JStr(message))
            && At(Some(b), Key("max_tokens")) == Some(JInt(maxTokens))
            && At(Some(b), Key("temperature")) == Some(JFloat(temperature))
  {
    var b := AnthropicBody(model, message, maxTokens, temperature);
    FieldValueAt(b.fields, 0);
    FieldValueAt(b.fields, 1);
    FieldValueAt(b.fields, 2);
    FieldValueAt(b.fields, 3);
    FieldValueAt(UserTurn(message).fields, 1);
  }

  /** The Google payload carries the message as the one text part, the token limit and the temperature. */
  lemma GooglePayload(message: string, maxTokens: int, temperature: real)
    ensures var b := GoogleBody(message, maxTokens, temperature);
            && At(At(At(At(At(Some(b), Key("contents")), First), Key("parts")), First), Key("text"))
               == Some(JStr(message))
            && At(At(Some(b), Key("generationConfig")), Key("maxOutputTokens")) == Some(JInt(maxTokens))
            && At(At(Some(b), Key("generationConfig")), Key("temperature")) == Some(JFloat(temperature))
  {
    var b := GoogleBody(message, maxTokens, temperature);
    FieldValueAt(b.fields, 0);
    FieldValueAt(b.fields, 1);
    FieldValueAt(b.fields[1].1.fields, 0);
    FieldValueAt(b.fields[1].1.fields, 1);
  }
}
