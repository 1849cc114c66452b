/**
 * The provider factory and the `BaseProvider` interface as callers see it
 * (src/providers/index.ts, src/types.ts): `createProvider` picks the
 * adapter by the configuration's `type`, and `chatCompletion` /
 * `getAvailableModels` dispatch on the adapter that was built.
 */
module Providers {
  import opened Wrappers
  import opened Types
  import opened Http
  import opened Base
  import DeepSeek
  import OpenAI
  import AzureOpenAI
  import Claude
  import Mistral
  import Codestral
  import Gemini

  function UnknownProviderType(providerType: string): string {
    "Unknown provider type: " + providerType
  }

  /** The `type` tag of the class each adapter kind is */
  function AdapterTag(adapter: Adapter): (tag: string)
    ensures tag in PROVIDER_TYPES
  {
    match adapter
    case DeepSeekAdapter => DEEPSEEK
    case OpenAIAdapter => OPENAI
    case AzureOpenAIAdapter(_) => AZURE_OPENAI
    case ClaudeAdapter => CLAUDE
    case MistralAdapter => MISTRAL
    case CodestralAdapter => CODESTRAL
    case GeminiAdapter => GEMINI
  }

  /** The prefix every message thrown by the adapter's `chatCompletion` starts with */
  function ErrorPrefix(adapter: Adapter): string {
    match adapter
    case DeepSeekAdapter => DeepSeek.ERROR_PREFIX
    case OpenAIAdapter => OpenAI.ERROR_PREFIX
    case AzureOpenAIAdapter(_) => AzureOpenAI.ERROR_PREFIX
    case ClaudeAdapter => Claude.ERROR_PREFIX
    case MistralAdapter => Mistral.ERROR_PREFIX
    case CodestralAdapter => Codestral.ERROR_PREFIX
    case GeminiAdapter => Gemini.ERROR_PREFIX
  }

  /**
   * What every provider the factory returns satisfies: its `type` is its
   * configuration's and names its own class, it has a non-empty key, and an
   * Azure provider has a base URL and deploys the configured default model.
   */
  predicate Valid(p: Provider) {
    && p.providerType == p.config.providerType == AdapterTag(p.adapter)
    && p.config.apiKey != ""
    && (p.adapter.AzureOpenAIAdapter? ==>
          p.config.baseUrl.Some? && p.config.baseUrl.value != "" && p.adapter.deploymentName == p.config.defaultModel)
  }

  /** `createProvider(config)`: the provider, or the message of the error thrown */
  function CreateProvider(config: ProviderConfig): (r: Result<Provider, string>)
    ensures config.providerType !in PROVIDER_TYPES ==> r == Failure(UnknownProviderType(config.providerType))
    ensures config.providerType in PROVIDER_TYPES && config.apiKey == "" ==> r == Failure(ApiKeyRequired(config.providerType))
    ensures config.providerType == AZURE_OPENAI && config.apiKey != "" && BaseUrlOr(config.baseUrl, "") == ""
            ==> r == Failure(AzureOpenAI.BASE_URL_REQUIRED)
    ensures r.Success? <==>
              && config.providerType in PROVIDER_TYPES && config.apiKey != ""
              && (config.providerType == AZURE_OPENAI ==> BaseUrlOr(config.baseUrl, "") != "")
    ensures r.Success? ==> r.value.config == config && Valid(r.value)
  {
    var t := config.providerType;
    if t == DEEPSEEK then DeepSeek.New(config)
    else if t == OPENAI then OpenAI.New(config)
    else if t == AZURE_OPENAI then AzureOpenAI.New(config)
    else if t == CLAUDE then Claude.New(config)
    else if t == MISTRAL then Mistral.New(config)
    else if t == CODESTRAL then Codestral.New(config)
    else if t == GEMINI then Gemini.New(config)
    else Failure(UnknownProviderType(t))
  }

  /**
   * `provider.chatCompletion(messages, options)`: the completion or the
   * thrown message, and the requests posted. Every adapter posts once
   * through the provider's own client, only DeepSeek may post a second
   * time, and every failure is reported under the adapter's own prefix.
   */
  function Completion(p: Provider, messages: seq<ChatMessage>, options: ChatCompletionOptions, transport: Transport)
    : (out: (Result<string, string>, seq<Request>))
    ensures 1 <= |out.1| <= 2
    ensures |out.1| == 2 ==> p.adapter.DeepSeekAdapter?
    ensures out.1[0].client == p.client
    ensures out.0.Failure? ==> |out.0.error| >= |ErrorPrefix(p.adapter)| && out.0.error[..|ErrorPrefix(p.adapter)|] == ErrorPrefix(p.adapter)
  {
    var opts := ResolvedOptions(p.config, options);
    match p.adapter
    case DeepSeekAdapter => DeepSeek.Attempts(p, messages, options, transport)
    case OpenAIAdapter =>
      (OpenAI.ChatCompletion(p, messages, options, transport), [OpenAI.Request(p.client, messages, opts)])
    case AzureOpenAIAdapter(deploymentName) =>
      (AzureOpenAI.ChatCompletion(p, messages, options, transport),
       [AzureOpenAI.Request(p.client, deploymentName, messages, opts)])
    case ClaudeAdapter =>
      var req := Claude.Request(p.client, messages, opts);
      (Settle(Claude.ERROR_PREFIX, ContentShape, transport(req)), [req])
    case MistralAdapter =>
      (Mistral.ChatCompletion(p, messages, options, transport), [Mistral.Request(p.client, messages, opts)])
    case CodestralAdapter =>
      (Codestral.ChatCompletion(p, messages, options, transport), [Codestral.Request(p.client, messages, opts)])
    case GeminiAdapter =>
      var req := Gemini.Request(p, messages, opts);
      (Settle(Gemini.ERROR_PREFIX, CandidatesShape, transport(req)), [req])
  }

  /** The dynamic dispatch of `chatCompletion` to the adapter's own code */
  method ChatCompletion(p: Provider, messages: seq<ChatMessage>, options: ChatCompletionOptions, transport: Transport)
    returns (r: Result<string, string>, sent: seq<Request>)
    ensures (r, sent) == Completion(p, messages, options, transport)
  {
    match p.adapter {
      case DeepSeekAdapter =>
        r, sent := DeepSeek.ChatCompletion(p, messages, options, transport);
      case OpenAIAdapter =>
        r := OpenAI.ChatCompletion(p, messages, options, transport);
        sent := [OpenAI.Request(p.client, messages, ResolvedOptions(p.config, options))];
      case AzureOpenAIAdapter(deploymentName) =>
        r := AzureOpenAI.ChatCompletion(p, messages, options, transport);
        sent := [AzureOpenAI.Request(p.client, deploymentName, messages, ResolvedOptions(p.config, options))];
      case ClaudeAdapter =>
        r, sent := Claude.ChatCompletion(p, messages, options, transport);
      case MistralAdapter =>
        r := Mistral.ChatCompletion(p, messages, options, transport);
        sent := [Mistral.Request(p.client, messages, ResolvedOptions(p.config, options))];
      case CodestralAdapter =>
        r := Codestral.ChatCompletion(p, messages, options, transport);
        sent := [Codestral.Request(p.client, messages, ResolvedOptions(p.config, options))];
      case GeminiAdapter =>
        r, sent := Gemini.ChatCompletion(p, messages, options, transport);
    }
  }

  /**
   * When the backend answers with a failure, a single-request adapter
   * reports the vendor's message (or the transport's) under its prefix.
   */
  lemma FailureReportsVendorMessage(p: Provider, messages: seq<ChatMessage>, options: ChatCompletionOptions,
                                    transport: Transport, e: PostError)
    requires !p.adapter.DeepSeekAdapter?
    requires forall req: Request :: transport(req) == Failure(e)
    ensures Completion(p, messages, options, transport).0 == Failure(ErrorPrefix(p.adapter) + ErrorDetail(e))
  {
    var (r, sent) := Completion(p, messages, options, transport);
    assert transport(sent[0]) == Failure(e);
  }

  /**
   * The options reach a provider only through their merge with the
   * defaults: two option records that merge alike give the same call.
   */
  lemma CompletionSeesOnlyMergedOptions(p: Provider, messages: seq<ChatMessage>, o1: ChatCompletionOptions,
                                        o2: ChatCompletionOptions, transport: Transport)
    requires ResolvedOptions(p.config, o1) == ResolvedOptions(p.config, o2)
    ensures Completion(p, messages, o1, transport) == Completion(p, messages, o2, transport)
  {
  }

  /** `provider.getAvailableModels()`: each adapter's catalog states its own ids distinct */
  function GetAvailableModels(p: Provider): seq<ModelInfo>
  {
    match p.adapter
    case DeepSeekAdapter => DeepSeek.GetAvailableModels()
    case OpenAIAdapter => OpenAI.GetAvailableModels()
    case AzureOpenAIAdapter(_) => AzureOpenAI.GetAvailableModels()
    case ClaudeAdapter => Claude.GetAvailableModels()
    case MistralAdapter => Mistral.GetAvailableModels()
    case CodestralAdapter => Codestral.GetAvailableModels()
    case GeminiAdapter => Gemini.GetAvailableModels()
  }
}
