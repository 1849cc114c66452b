/**
 * The scenarios of the repository's basic test suite
 * (src/__tests__/simple.test.ts), stated over the model: start-up from the
 * environment, building a DeepSeek provider, its catalog, and the two
 * start-up errors.
 */
module BasicFunctionality {
  import opened Wrappers
  import opened Types
  import opened Base
  import Config
  import Providers
  import DeepSeek

  /** The configuration the provider tests build by hand: no base URL, the chat model as default */
  function TestConfig(): ProviderConfig {
    ProviderConfig("deepseek", "test-key", None, ["deepseek-chat"], "deepseek-chat")
  }

  /** "should load configuration": a lone DeepSeek key selects DeepSeek with that key and the reasoner as default model. */
  lemma LoadConfigurationScenario()
    ensures var r := Config.LoadConfig(map["DEEPSEEK_API_KEY" := "test-key"]);
      && r.Success?
      && r.value.selectedProvider == "deepseek"
      && r.value.providers["deepseek"].apiKey == "test-key"
      && r.value.providers["deepseek"].defaultModel == "deepseek-reasoner"
  {
    var env := map["DEEPSEEK_API_KEY" := "test-key"];
    assert "PROVIDER" !in env;
    assert Config.Selected(env) == DEEPSEEK;
    var c := Config.Record(env, DEEPSEEK);
    assert Config.VendorOf(DEEPSEEK).apiKeyVariable == "DEEPSEEK_API_KEY";
    assert Config.VendorOf(DEEPSEEK).defaultModelVariable == "DEEPSEEK_DEFAULT_MODEL";
    assert "DEEPSEEK_DEFAULT_MODEL" !in env;
    assert c.apiKey == "test-key" && c.defaultModel == "deepseek-reasoner";
  }

  /** "should create providers": the factory builds a DeepSeek provider whose `type` is "deepseek". */
  lemma CreateProvidersScenario()
    ensures var r := Providers.CreateProvider(TestConfig());
      r.Success? && r.value.providerType == "deepseek" && r.value.adapter == DeepSeekAdapter
  {
    assert Providers.CreateProvider(TestConfig()) == DeepSeek.New(TestConfig());
  }

  /** "should get available models": that provider lists two models, `deepseek-chat` first. */
  lemma AvailableModelsScenario()
    ensures var r := Providers.CreateProvider(TestConfig());
      r.Success? && |Providers.GetAvailableModels(r.value)| == 2
      && Providers.GetAvailableModels(r.value)[0].id == "deepseek-chat"
  {
    CreateProvidersScenario();
    DeepSeekCatalog(Providers.CreateProvider(TestConfig()).value);
  }

  lemma DeepSeekCatalog(p: Provider)
    requires p.adapter == DeepSeekAdapter
    ensures Providers.GetAvailableModels(p) == DeepSeek.GetAvailableModels()
  {
  }

  /** "should validate required API keys": with no DeepSeek key and no selection, start-up fails on the key. */
  lemma RequiredApiKeyScenario(env: Config.Env)
    requires "PROVIDER" !in env && "DEEPSEEK_API_KEY" !in env
    ensures Config.LoadConfig(env) == Failure(Config.ApiKeyMissing("deepseek"))
    ensures Config.LoadConfig(env).error[..19] == "API key is required"
  {
    assert Config.Selected(env) == DEEPSEEK;
    assert Config.VendorOf(DEEPSEEK).apiKeyVariable == "DEEPSEEK_API_KEY";
    assert Config.Record(env, DEEPSEEK).apiKey == "";
    assert |Config.KEY_REQUIRED| == 19;
  }

  /** "should validate Azure OpenAI base URL": Azure with a key but no base URL fails on the base URL. */
  lemma AzureBaseUrlScenario(env: Config.Env)
    requires "PROVIDER" in env && env["PROVIDER"] == "azure-openai"
    requires "AZURE_OPENAI_API_KEY" in env && env["AZURE_OPENAI_API_KEY"] == "test-key"
    requires "AZURE_OPENAI_BASE_URL" !in env
    ensures Config.LoadConfig(env) == Failure(Config.AZURE_BASE_URL_REQUIRED)
  {
    assert Config.VendorOf(AZURE_OPENAI).apiKeyVariable == "AZURE_OPENAI_API_KEY";
  }
}
