/** The OpenAI adapter (src/providers/openai.ts): bearer authentication, the full option set. */
module OpenAI {
  import opened Wrappers
  import opened Types
  import opened Http
  import opened Base

  const DEFAULT_BASE_URL: string := "https://api.openai.com/v1"
  const ERROR_PREFIX: string := "OpenAI API error: "

  function Client(config: ProviderConfig): HttpClient {
    HttpClient(BaseUrlOr(config.baseUrl, DEFAULT_BASE_URL), BearerHeaders(config.apiKey))
  }

  /** `new OpenAIProvider(config)` */
  function New(config: ProviderConfig): (r: Result<Provider, string>)
    ensures r.Failure? <==> config.apiKey == ""
    ensures r.Success? ==> r.value == Construct(config, Client(config), OpenAIAdapter)
  {
    match ValidateApiKey(config.providerType, config)
    case Some(error) => Failure(error)
    case None => Success(Construct(config, Client(config), OpenAIAdapter))
  }

  /** The one request `chatCompletion` posts */
  function Request(client: HttpClient, messages: seq<ChatMessage>, opts: RequiredOptions): Request {
    Post(client, "/chat/completions",
         ChatBody(opts.model, messages, opts.temperature, opts.maxTokens, opts.topP,
                  opts.frequencyPenalty, opts.presencePenalty))
  }

  /** `chatCompletion`: one post, `choices[0].message.content` back */
  function ChatCompletion(p: Provider, messages: seq<ChatMessage>, options: ChatCompletionOptions, transport: Transport)
    : Result<string, string>
  {
    Settle(ERROR_PREFIX, ChoicesShape, transport(Request(p.client, messages, ResolvedOptions(p.config, options))))
  }

  /** `getAvailableModels` */
  function GetAvailableModels(): (models: seq<ModelInfo>)
    ensures |models| == 3 && DistinctIds(models)
    ensures models[0].id == "gpt-4.1-mini" && models[1].id == "gpt-4o-mini" && models[2].id == "gpt-4.1-nano"
  {
    [ ModelInfo("gpt-4.1-mini", "gpt-4.1-mini", "Most advanced GPT-4o model with multimodal capabilities"),
      ModelInfo("gpt-4o-mini", "GPT-4 Omni Mini", "Smaller, faster version of GPT-4 Omni"),
      ModelInfo("gpt-4.1-nano", "gpt-4.1-nano", "Fast and capable GPT-4 model") ]
  }

  /**
   * The body carries the caller's messages unchanged and every option,
   * each the caller's value where given and the default elsewhere.
   */
  lemma RequestCarriesMergedOptions(p: Provider, messages: seq<ChatMessage>, options: ChatCompletionOptions)
    ensures var req := Request(p.client, messages, ResolvedOptions(p.config, options));
      && req.client == p.client && req.path == "/chat/completions"
      && req.body.ChatBody? && req.body.messages == messages
      && req.body.model == options.model.GetOr(p.config.defaultModel)
      && req.body.temperature == options.temperature.GetOr(0.7)
      && req.body.maxTokens == options.maxTokens.GetOr(8000.0)
      && req.body.topP == options.topP.GetOr(1.0)
      && req.body.frequencyPenalty == options.frequencyPenalty.GetOr(0.1)
      && req.body.presencePenalty == options.presencePenalty.GetOr(0.0)
  {
  }

  /** A backend answering `choices: [{message: {content: "hello"}}]` yields exactly "hello". */
  lemma HelloScenario(p: Provider, transport: Transport)
    requires forall req :: transport(req) == Success(Envelope(Some(["hello"]), None, None))
    ensures ChatCompletion(p, [ChatMessage(User, "hi")], NO_OPTIONS, transport) == Success("hello")
  {
  }

  /** A non-2xx answer carrying `{error: {message: "rate limited"}}` surfaces that message. */
  lemma RateLimitedScenario(p: Provider, transport: Transport, status: string)
    requires forall req :: transport(req) == Failure(HttpError(Some("rate limited"), status))
    ensures ChatCompletion(p, [ChatMessage(User, "hi")], NO_OPTIONS, transport) == Failure("OpenAI API error: rate limited")
  {
    var req := Request(p.client, [ChatMessage(User, "hi")], ResolvedOptions(p.config, NO_OPTIONS));
    assert transport(req) == Failure(HttpError(Some("rate limited"), status));
    assert ERROR_PREFIX + "rate limited" == "OpenAI API error: rate limited";
  }
}
