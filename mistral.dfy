/** The Mistral adapter (src/providers/mistral.ts): bearer authentication, no penalties in the body. */
module Mistral {
  import opened Wrappers
  import opened Types
  import opened Http
  import opened Base

  const DEFAULT_BASE_URL: string := "https://api.mistral.ai/v1"
  const ERROR_PREFIX: string := "Mistral API error: "

  function Client(config: ProviderConfig): HttpClient {
    HttpClient(BaseUrlOr(config.baseUrl, DEFAULT_BASE_URL), BearerHeaders(config.apiKey))
  }

  /** `new MistralProvider(config)` */
  function New(config: ProviderConfig): (r: Result<Provider, string>)
    ensures r.Failure? <==> config.apiKey == ""
    ensures r.Success? ==> r.value == Construct(config, Client(config), MistralAdapter)
  {
    match ValidateApiKey(config.providerType, config)
    case Some(error) => Failure(error)
    case None => Success(Construct(config, Client(config), MistralAdapter))
  }

  /** The one request `chatCompletion` posts */
  function Request(client: HttpClient, messages: seq<ChatMessage>, opts: RequiredOptions): Request {
    Post(client, "/chat/completions", MistralBody(opts.model, messages, opts.temperature, opts.maxTokens, opts.topP))
  }

  /** `chatCompletion`: one post, `choices[0].message.content` back */
  function ChatCompletion(p: Provider, messages: seq<ChatMessage>, options: ChatCompletionOptions, transport: Transport)
    : Result<string, string>
  {
    Settle(ERROR_PREFIX, ChoicesShape, transport(Request(p.client, messages, ResolvedOptions(p.config, options))))
  }

  /** `getAvailableModels` */
  function GetAvailableModels(): (models: seq<ModelInfo>)
    ensures |models| == 6 && DistinctIds(models)
    ensures models[0].id == "mistral-large-latest"
  {
    [ ModelInfo("mistral-large-latest", "Mistral Large", "Most advanced model for complex reasoning tasks"),
      ModelInfo("mistral-medium-latest", "Mistral Medium", "Balanced model for most use cases"),
      ModelInfo("mistral-small-latest", "Mistral Small", "Fast and efficient model for simple tasks"),
      ModelInfo("open-mistral-7b", "Open Mistral 7B", "Open-source 7B parameter model"),
      ModelInfo("open-mixtral-8x7b", "Open Mixtral 8x7B", "Open-source mixture of experts model"),
      ModelInfo("open-mixtral-8x22b", "Open Mixtral 8x22B", "Larger open-source mixture of experts model") ]
  }

  /**
   * The body carries model, messages, temperature, max_tokens and top_p;
   * penalties supplied by the caller have no effect on what is sent.
   */
  lemma RequestIgnoresPenalties(p: Provider, messages: seq<ChatMessage>, options: ChatCompletionOptions,
                                frequencyPenalty: Option<real>, presencePenalty: Option<real>)
    ensures var req := Request(p.client, messages, ResolvedOptions(p.config, options));
      && req.path == "/chat/completions" && req.body.MistralBody? && req.body.messages == messages
      && req.body.model == options.model.GetOr(p.config.defaultModel)
      && req.body.temperature == options.temperature.GetOr(0.7)
      && req.body.maxTokens == options.maxTokens.GetOr(8000.0)
      && req.body.topP == options.topP.GetOr(1.0)
      && req == Request(p.client, messages,
                        ResolvedOptions(p.config, options.(frequencyPenalty := frequencyPenalty, presencePenalty := presencePenalty)))
  {
  }
}
