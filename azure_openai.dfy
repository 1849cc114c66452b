/**
 * The Azure OpenAI adapter (src/providers/azure-openai.ts): an `api-key`
 * header, a mandatory base URL, and the model routed as a deployment name
 * in the URL path rather than in the body.
 */
module AzureOpenAI {
  import opened Wrappers
  import opened Types
  import opened Http
  import opened Base

  const API_VERSION: string := "2024-02-15-preview"
  const ERROR_PREFIX: string := "Azure OpenAI API error: "
  const BASE_URL_REQUIRED: string := "Azure OpenAI requires a baseUrl (e.g., https://your-resource.openai.azure.com)"

  /** The configured base URL is used as it is; the key goes in an `api-key` header. */
  function Client(config: ProviderConfig): HttpClient {
    HttpClient(config.baseUrl.GetOr(""), map["api-key" := config.apiKey, "Content-Type" := JSON_CONTENT_TYPE])
  }

  /** `new AzureOpenAIProvider(config)`: the key is checked first, then the base URL. */
  function New(config: ProviderConfig): (r: Result<Provider, string>)
    ensures config.apiKey == "" ==> r == Failure(ApiKeyRequired(config.providerType))
    ensures config.apiKey != "" && BaseUrlOr(config.baseUrl, "") == "" ==> r == Failure(BASE_URL_REQUIRED)
    ensures r.Success? <==> config.apiKey != "" && BaseUrlOr(config.baseUrl, "") != ""
    ensures r.Success? ==> r.value == Construct(config, Client(config), AzureOpenAIAdapter(config.defaultModel))
    ensures r.Success? ==> r.value.client.baseUrl == config.baseUrl.value
  {
    match ValidateApiKey(config.providerType, config)
    case Some(error) => Failure(error)
    case None =>
      if config.baseUrl.None? || config.baseUrl.value == "" then Failure(BASE_URL_REQUIRED)
      else Success(Construct(config, Client(config), AzureOpenAIAdapter(config.defaultModel)))
  }

  /** `opts.model || this.deploymentName` */
  function DeploymentFor(opts: RequiredOptions, deploymentName: string): string {
    if opts.model != "" then opts.model else deploymentName
  }

  function DeploymentPath(deployment: string): string {
    "/openai/deployments/" + deployment + "/chat/completions?api-version=" + API_VERSION
  }

  /** The one request `chatCompletion` posts: no `model` field in the body */
  function Request(client: HttpClient, deploymentName: string, messages: seq<ChatMessage>, opts: RequiredOptions): Request {
    Post(client, DeploymentPath(DeploymentFor(opts, deploymentName)),
         DeploymentBody(messages, opts.temperature, opts.maxTokens, opts.topP, opts.frequencyPenalty, opts.presencePenalty))
  }

  /** `chatCompletion` on an Azure provider */
  function ChatCompletion(p: Provider, messages: seq<ChatMessage>, options: ChatCompletionOptions, transport: Transport)
    : Result<string, string>
    requires p.adapter.AzureOpenAIAdapter?
  {
    Settle(ERROR_PREFIX, ChoicesShape,
           transport(Request(p.client, p.adapter.deploymentName, messages, ResolvedOptions(p.config, options))))
  }

  /** `getAvailableModels` */
  function GetAvailableModels(): (models: seq<ModelInfo>)
    ensures |models| == 4 && DistinctIds(models)
  {
    [ ModelInfo("gpt-4o", "GPT-4 Omni", "Most advanced GPT-4 model with multimodal capabilities"),
      ModelInfo("gpt-4o-mini", "GPT-4 Omni Mini", "Smaller, faster version of GPT-4 Omni"),
      ModelInfo("gpt-4.1-mini", "gpt-4.1-mini", "Fast and capable gpt-4.1 model"),
      ModelInfo("gpt-4.1", "gpt-4.1", "Most advanced gpt-4.1 model with multimodal capabilities") ]
  }

  /**
   * Routing as seen by the caller of a freshly built provider: a non-empty
   * model option names the deployment; an absent or empty one routes to the
   * configured default model. The body carries the messages and the five
   * numeric options.
   */
  lemma DeploymentRouting(config: ProviderConfig, messages: seq<ChatMessage>, options: ChatCompletionOptions)
    requires New(config).Success?
    ensures var p := New(config).value;
      var req := Request(p.client, p.adapter.deploymentName, messages, ResolvedOptions(p.config, options));
      && req.client.baseUrl == config.baseUrl.value
      && req.path == DeploymentPath(if options.model.Some? && options.model.value != "" then options.model.value
                                    else config.defaultModel)
      && req.body == DeploymentBody(messages, options.temperature.GetOr(0.7), options.maxTokens.GetOr(8000.0),
                                    options.topP.GetOr(1.0), options.frequencyPenalty.GetOr(0.1),
                                    options.presencePenalty.GetOr(0.0))
  {
  }
}
