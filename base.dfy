/**
 * The provider contract (src/providers/base.ts): what every adapter shares —
 * the `type` and `config` fields set at construction, the API-key check, the
 * fixed default options, and the `{...defaults, ...options}` merge.
 */
module Base {
  import opened Wrappers
  import opened Types
  import opened Http

  /** Which concrete adapter class a provider is, with that class's own extra state */
  datatype Adapter =
    | DeepSeekAdapter
    | OpenAIAdapter
    | AzureOpenAIAdapter(deploymentName: string)
    | ClaudeAdapter
    | MistralAdapter
    | CodestralAdapter
    | GeminiAdapter

  /**
   * A constructed provider: `type` and `config` from `AbstractProvider`,
   * the adapter's HTTP client, and the adapter kind. Nothing changes it
   * after construction.
   */
  datatype Provider = Provider(providerType: string, config: ProviderConfig, client: HttpClient, adapter: Adapter)

  /** `AbstractProvider`'s constructor, followed by the subclass's own fields */
  function Construct(config: ProviderConfig, client: HttpClient, adapter: Adapter): (p: Provider)
    ensures p.providerType == config.providerType && p.config == config
    ensures p.client == client && p.adapter == adapter
  {
    Provider(config.providerType, config, client, adapter)
  }

  function ApiKeyRequired(providerType: string): string {
    "API key is required for " + providerType + " provider"
  }

  /** `validateApiKey`: the error it throws, if any */
  function ValidateApiKey(providerType: string, config: ProviderConfig): (error: Option<string>)
    ensures error.Some? <==> config.apiKey == ""
    ensures error.Some? ==> error.value == ApiKeyRequired(providerType)
  {
    if config.apiKey == "" then Some(ApiKeyRequired(providerType)) else None
  }

  /** `getDefaultOptions` */
  function GetDefaultOptions(config: ProviderConfig): (d: RequiredOptions)
    ensures d.model == config.defaultModel
    ensures d.temperature == 0.7 && d.maxTokens == 8000.0 && d.topP == 1.0
    ensures d.frequencyPenalty == 0.1 && d.presencePenalty == 0.0
  {
    RequiredOptions(config.defaultModel, 0.7, 8000.0, 1.0, 0.1, 0.0)
  }

  /** `{ ...defaults, ...options }`: a field the caller supplies wins, an absent one takes the default */
  function MergeOptions(defaults: RequiredOptions, options: ChatCompletionOptions): (m: RequiredOptions)
    ensures m.model == if options.model.Some? then options.model.value else defaults.model
    ensures m.temperature == if options.temperature.Some? then options.temperature.value else defaults.temperature
    ensures m.maxTokens == if options.maxTokens.Some? then options.maxTokens.value else defaults.maxTokens
    ensures m.topP == if options.topP.Some? then options.topP.value else defaults.topP
    ensures m.frequencyPenalty == if options.frequencyPenalty.Some? then options.frequencyPenalty.value else defaults.frequencyPenalty
    ensures m.presencePenalty == if options.presencePenalty.Some? then options.presencePenalty.value else defaults.presencePenalty
  {
    RequiredOptions(
      options.model.GetOr(defaults.model),
      options.temperature.GetOr(defaults.temperature),
      options.maxTokens.GetOr(defaults.maxTokens),
      options.topP.GetOr(defaults.topP),
      options.frequencyPenalty.GetOr(defaults.frequencyPenalty),
      options.presencePenalty.GetOr(defaults.presencePenalty))
  }

  /** What an adapter sends for `chatCompletion(messages, options)` */
  function ResolvedOptions(config: ProviderConfig, options: ChatCompletionOptions): RequiredOptions {
    MergeOptions(GetDefaultOptions(config), options)
  }

  /** All six fields supplied */
  predicate Complete(options: ChatCompletionOptions) {
    && options.model.Some? && options.temperature.Some? && options.maxTokens.Some?
    && options.topP.Some? && options.frequencyPenalty.Some? && options.presencePenalty.Some?
  }

  /** Merging no options yields exactly the defaults, field for field */
  lemma MergeNothingIsDefaults(defaults: RequiredOptions)
    ensures MergeOptions(defaults, NO_OPTIONS) == defaults
  {
  }

  /** Fully supplied options leave nothing of the defaults */
  lemma MergeCompleteIgnoresDefaults(d1: RequiredOptions, d2: RequiredOptions, options: ChatCompletionOptions)
    requires Complete(options)
    ensures MergeOptions(d1, options) == MergeOptions(d2, options)
  {
  }

  /** Merging the same options twice changes nothing more */
  lemma MergeIdempotent(defaults: RequiredOptions, options: ChatCompletionOptions)
    ensures MergeOptions(MergeOptions(defaults, options), options) == MergeOptions(defaults, options)
  {
  }

  /** The defaults depend on nothing but the configured default model */
  lemma DefaultsDependOnlyOnDefaultModel(c1: ProviderConfig, c2: ProviderConfig)
    requires c1.defaultModel == c2.defaultModel
    ensures GetDefaultOptions(c1) == GetDefaultOptions(c2)
  {
  }
}
