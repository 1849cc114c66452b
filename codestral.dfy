/** The Codestral adapter (src/providers/codestral.ts): bearer authentication, no penalties in the body. */
module Codestral {
  import opened Wrappers
  import opened Types
  import opened Http
  import opened Base

  const DEFAULT_BASE_URL: string := "https://codestral.mistral.ai/v1"
  const ERROR_PREFIX: string := "Codestral API error: "

  function Client(config: ProviderConfig): HttpClient {
    HttpClient(BaseUrlOr(config.baseUrl, DEFAULT_BASE_URL), BearerHeaders(config.apiKey))
  }

  /** `new CodestralProvider(config)` */
  function New(config: ProviderConfig): (r: Result<Provider, string>)
    ensures r.Failure? <==> config.apiKey == ""
    ensures r.Success? ==> r.value == Construct(config, Client(config), CodestralAdapter)
  {
    match ValidateApiKey(config.providerType, config)
    case Some(error) => Failure(error)
    case None => Success(Construct(config, Client(config), CodestralAdapter))
  }

  /** The one request `chatCompletion` posts */
  function Request(client: HttpClient, messages: seq<ChatMessage>, opts: RequiredOptions): Request {
    Post(client, "/chat/completions", MistralBody(opts.model, messages, opts.temperature, opts.maxTokens, opts.topP))
  }

  /** `chatCompletion`: one post, `choices[0].message.content` back */
  function ChatCompletion(p: Provider, messages: seq<ChatMessage>, options: ChatCompletionOptions, transport: Transport)
    : Result<string, string>
  {
    Settle(ERROR_PREFIX, ChoicesShape, transport(Request(p.client, messages, ResolvedOptions(p.config, options))))
  }

  /** `getAvailableModels` */
  function GetAvailableModels(): (models: seq<ModelInfo>)
    ensures |models| == 2 && DistinctIds(models)
    ensures models[0].id == "codestral-latest" && models[1].id == "codestral-2405"
  {
    [ ModelInfo("codestral-latest", "Codestral Latest", "Most recent version of Codestral for code generation and completion"),
      ModelInfo("codestral-2405", "Codestral 2405", "Codestral model specialized for code generation and programming tasks") ]
  }

  /**
   * The body carries model, messages, temperature, max_tokens and top_p;
   * penalties supplied by the caller have no effect on what is sent.
   */
  lemma RequestIgnoresPenalties(p: Provider, messages: seq<ChatMessage>, options: ChatCompletionOptions,
                                frequencyPenalty: Option<real>, presencePenalty: Option<real>)
    ensures var req := Request(p.client, messages, ResolvedOptions(p.config, options));
      && req.path == "/chat/completions" && req.body.MistralBody? && req.body.messages == messages
      && req.body.model == options.model.GetOr(p.config.defaultModel)
      && req.body.temperature == options.temperature.GetOr(0.7)
      && req.body.maxTokens == options.maxTokens.GetOr(8000.0)
      && req.body.topP == options.topP.GetOr(1.0)
      && req == Request(p.client, messages,
                        ResolvedOptions(p.config, options.(frequencyPenalty := frequencyPenalty, presencePenalty := presencePenalty)))
  {
  }
}
