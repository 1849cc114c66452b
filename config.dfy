/**
 * Start-up configuration (src/config.ts): one record per vendor built from
 * environment variables with vendor defaults, the selected vendor from
 * `PROVIDER`, and validation of the selected vendor only. The environment is
 * a map from variable names to values; an absent variable and an empty one
 * behave the same, as `process.env.X || default` makes them.
 */
module Config {
  import opened Wrappers
  import opened Types
  import opened Base
  import Providers
  import AzureOpenAI

  type Env = map<string, string>

  /** `process.env[name] || fallback` */
  function EnvOr(env: Env, name: string, fallback: string): (v: string)
    ensures name in env && env[name] != "" ==> v == env[name]
    ensures name !in env || env[name] == "" ==> v == fallback
  {
    if name in env && env[name] != "" then env[name] else fallback
  }

  /** What `loadConfig` hard-codes for one vendor: the names of its three variables and its defaults */
  datatype Vendor = Vendor(apiKeyVariable: string, baseUrlVariable: string, defaultModelVariable: string,
                           baseUrl: string, models: seq<string>, defaultModel: string)

  /** Every vendor names a default model, and all but Azure a default base URL */
  function VendorOf(providerType: string): (v: Vendor)
    requires providerType in PROVIDER_TYPES
    ensures v.defaultModel != ""
    ensures providerType != AZURE_OPENAI ==> v.baseUrl != ""
  {
    if providerType == DEEPSEEK then
      Vendor("DEEPSEEK_API_KEY", "DEEPSEEK_BASE_URL", "DEEPSEEK_DEFAULT_MODEL",
             "https://api.deepseek.com/v1", ["deepseek-chat", "deepseek-reasoner"], "deepseek-reasoner")
    else if providerType == OPENAI then
      Vendor("OPENAI_API_KEY", "OPENAI_BASE_URL", "OPENAI_DEFAULT_MODEL",
             "https://api.openai.com/v1", ["gpt-4o-mini", "gpt-4.1-mini", "gpt-4.1-nano"], "gpt-4.1-mini")
    else if providerType == AZURE_OPENAI then
      Vendor("AZURE_OPENAI_API_KEY", "AZURE_OPENAI_BASE_URL", "AZURE_OPENAI_DEFAULT_MODEL",
             "", ["gpt-4o", "gpt-4o-mini", "gpt-4.1-mini"], "gpt-4.1-mini")
    else if providerType == CLAUDE then
      Vendor("CLAUDE_API_KEY", "CLAUDE_BASE_URL", "CLAUDE_DEFAULT_MODEL",
             "https://api.anthropic.com/v1",
             ["claude-3-5-sonnet-20241022", "claude-3-5-haiku-20241022", "claude-3-opus-20240229",
              "claude-3-sonnet-20240229", "claude-3-haiku-20240307"],
             "claude-3-5-sonnet-20241022")
    else if providerType == MISTRAL then
      Vendor("MISTRAL_API_KEY", "MISTRAL_BASE_URL", "MISTRAL_DEFAULT_MODEL",
             "https://api.mistral.ai/v1",
             ["mistral-large-latest", "mistral-medium-latest", "mistral-small-latest",
              "open-mistral-7b", "open-mixtral-8x7b", "open-mixtral-8x22b"],
             "mistral-large-latest")
    else if providerType == CODESTRAL then
      Vendor("CODESTRAL_API_KEY", "CODESTRAL_BASE_URL", "CODESTRAL_DEFAULT_MODEL",
             "https://codestral.mistral.ai/v1", ["codestral-latest", "codestral-2405"], "codestral-latest")
    else
      Vendor("GEMINI_API_KEY", "GEMINI_BASE_URL", "GEMINI_DEFAULT_MODEL",
             "https://generativelanguage.googleapis.com/v1beta",
             ["gemini-1.5-pro", "gemini-1.5-flash", "gemini-1.0-pro", "gemini-exp-1206"], "gemini-1.5-pro")
  }

  /** One vendor's record: its three variables, each over its default */
  function Record(env: Env, providerType: string): (c: ProviderConfig)
    requires providerType in PROVIDER_TYPES
    ensures c.providerType == providerType
    ensures c.apiKey == EnvOr(env, VendorOf(providerType).apiKeyVariable, "")
    ensures c.baseUrl == Some(EnvOr(env, VendorOf(providerType).baseUrlVariable, VendorOf(providerType).baseUrl))
    ensures c.defaultModel == EnvOr(env, VendorOf(providerType).defaultModelVariable, VendorOf(providerType).defaultModel)
  {
    var v := VendorOf(providerType);
    ProviderConfig(providerType,
                   EnvOr(env, v.apiKeyVariable, ""),
                   Some(EnvOr(env, v.baseUrlVariable, v.baseUrl)),
                   v.models,
                   EnvOr(env, v.defaultModelVariable, v.defaultModel))
  }

  /** The `providers` record: one entry per vendor tag */
  function ProviderRecords(env: Env): (providers: map<string, ProviderConfig>)
    ensures providers.Keys == PROVIDER_TYPES
    ensures forall t :: t in providers ==> providers[t] == Record(env, t)
  {
    map t | t in PROVIDER_TYPES :: Record(env, t)
  }

  datatype ServerConfig = ServerConfig(selectedProvider: string, providers: map<string, ProviderConfig>)

  const DEFAULT_SELECTION: string := DEEPSEEK

  /** `(process.env.PROVIDER || 'deepseek')` */
  function Selected(env: Env): (selected: string)
    ensures "PROVIDER" !in env || env["PROVIDER"] == "" ==> selected == DEFAULT_SELECTION
    ensures "PROVIDER" in env && env["PROVIDER"] != "" ==> selected == env["PROVIDER"]
  {
    EnvOr(env, "PROVIDER", DEFAULT_SELECTION)
  }

  /** Reading `.apiKey` of the `undefined` an unknown selection looks up */
  const UNDEFINED_SELECTION: string := "Cannot read properties of undefined (reading 'apiKey')"
  const AZURE_BASE_URL_REQUIRED: string :=
    "Azure OpenAI requires AZURE_OPENAI_BASE_URL to be set (e.g., https://your-resource.openai.azure.com)"

  /** The words every missing-key message opens with */
  const KEY_REQUIRED: string := "API key is required"

  function ApiKeyMissing(selected: string): (message: string)
    ensures |message| >= |KEY_REQUIRED| && message[..|KEY_REQUIRED|] == KEY_REQUIRED
  {
    KEY_REQUIRED + (" for " + selected + " provider. Please set the appropriate environment variable.")
  }

  /**
   * `loadConfig()`. Only the selected vendor is validated: its key first,
   * then, for Azure, its base URL.
   */
  function LoadConfig(env: Env): (r: Result<ServerConfig, string>)
    ensures Selected(env) !in PROVIDER_TYPES ==> r == Failure(UNDEFINED_SELECTION)
    ensures Selected(env) in PROVIDER_TYPES && Record(env, Selected(env)).apiKey == ""
            ==> r == Failure(ApiKeyMissing(Selected(env)))
    ensures Selected(env) == AZURE_OPENAI && Record(env, AZURE_OPENAI).apiKey != ""
              && EnvOr(env, "AZURE_OPENAI_BASE_URL", "") == ""
            ==> r == Failure(AZURE_BASE_URL_REQUIRED)
    ensures r.Success? <==>
              && Selected(env) in PROVIDER_TYPES
              && Record(env, Selected(env)).apiKey != ""
              && (Selected(env) == AZURE_OPENAI ==> EnvOr(env, "AZURE_OPENAI_BASE_URL", "") != "")
    ensures r.Success? ==> r.value == ServerConfig(Selected(env), ProviderRecords(env))
  {
    var selectedProvider := Selected(env);
    var providers := ProviderRecords(env);
    if selectedProvider !in providers then Failure(UNDEFINED_SELECTION)
    else
      var selectedProviderConfig := providers[selectedProvider];
      if selectedProviderConfig.apiKey == "" then Failure(ApiKeyMissing(selectedProvider))
      else if selectedProvider == AZURE_OPENAI && selectedProviderConfig.baseUrl.GetOr("") == "" then
        Failure(AZURE_BASE_URL_REQUIRED)
      else Success(ServerConfig(selectedProvider, providers))
  }

  /** The environment with empty variables removed */
  function Effective(env: Env): (e: Env)
    ensures forall name :: name in e <==> name in env && env[name] != ""
    ensures forall name :: name in e ==> e[name] == env[name]
  {
    map name | name in env && env[name] != "" :: env[name]
  }

  lemma EnvOrEffective(env: Env, name: string, fallback: string)
    ensures EnvOr(env, name, fallback) == EnvOr(Effective(env), name, fallback)
  {
  }

  lemma RecordEffective(env: Env, providerType: string)
    requires providerType in PROVIDER_TYPES
    ensures Record(env, providerType) == Record(Effective(env), providerType)
  {
    var v := VendorOf(providerType);
    EnvOrEffective(env, v.apiKeyVariable, "");
    EnvOrEffective(env, v.baseUrlVariable, v.baseUrl);
    EnvOrEffective(env, v.defaultModelVariable, v.defaultModel);
  }

  /** Empty variables make no difference to any record. */
  lemma RecordsIgnoreEmpty(env: Env)
    ensures ProviderRecords(env) == ProviderRecords(Effective(env))
  {
    forall t | t in PROVIDER_TYPES
      ensures Record(env, t) == Record(Effective(env), t)
    {
      RecordEffective(env, t);
    }
  }

  /** Setting a variable to the empty string is the same as leaving it unset. */
  lemma EmptyIsUnset(env: Env)
    ensures ProviderRecords(env) == ProviderRecords(Effective(env))
    ensures LoadConfig(env) == LoadConfig(Effective(env))
  {
    RecordsIgnoreEmpty(env);
    EnvOrEffective(env, "PROVIDER", DEFAULT_SELECTION);
  }

  /**
   * Every record's `type` is its key, every record has a base URL, and all
   * but Azure's default to a non-empty one.
   */
  lemma RecordsWellFormed(env: Env)
    ensures forall t :: t in ProviderRecords(env) ==>
              && ProviderRecords(env)[t].providerType == t
              && ProviderRecords(env)[t].baseUrl.Some?
              && (t != AZURE_OPENAI ==> ProviderRecords(env)[t].baseUrl.value != "")
              && ProviderRecords(env)[t].defaultModel != ""
  {
  }

  /**
   * A configuration `loadConfig` accepts always builds: the selected record
   * passes every check `createProvider` and the adapter constructors make.
   */
  lemma LoadedSelectionBuilds(env: Env)
    requires LoadConfig(env).Success?
    ensures var config := LoadConfig(env).value;
      && config.selectedProvider in config.providers
      && Providers.CreateProvider(config.providers[config.selectedProvider]).Success?
      && Providers.CreateProvider(config.providers[config.selectedProvider]).value.providerType == config.selectedProvider
  {
    var config := LoadConfig(env).value;
    var c := config.providers[config.selectedProvider];
    assert c == Record(env, config.selectedProvider);
    if config.selectedProvider == AZURE_OPENAI {
      assert VendorOf(AZURE_OPENAI).baseUrlVariable == "AZURE_OPENAI_BASE_URL";
    }
  }
}
