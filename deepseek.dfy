/**
 * The DeepSeek adapter (src/providers/deepseek.ts): the OpenAI-compatible
 * request, plus one retry. When the merged model is `deepseek-reasoner`
 * and anything inside the first `try` fails, the same request is posted
 * once more with `deepseek-chat`, and a successful answer is prefixed with
 * a note.
 */
module DeepSeek {
  import opened Wrappers
  import opened Types
  import opened Http
  import opened Base

  const DEFAULT_BASE_URL: string := "https://api.deepseek.com/v1"
  const ERROR_PREFIX: string := "DeepSeek API error: "
  const REASONER: string := "deepseek-reasoner"
  const CHAT: string := "deepseek-chat"
  const FALLBACK_NOTE: string := "Note: Fallback to deepseek-chat due to reasoner error.\n\n"

  function Client(config: ProviderConfig): HttpClient {
    HttpClient(BaseUrlOr(config.baseUrl, DEFAULT_BASE_URL), BearerHeaders(config.apiKey))
  }

  /** `new DeepSeekProvider(config)` */
  function New(config: ProviderConfig): (r: Result<Provider, string>)
    ensures r.Failure? <==> config.apiKey == ""
    ensures r.Success? ==> r.value == Construct(config, Client(config), DeepSeekAdapter)
  {
    match ValidateApiKey(config.providerType, config)
    case Some(error) => Failure(error)
    case None => Success(Construct(config, Client(config), DeepSeekAdapter))
  }

  /** A post to `/chat/completions` with the given model and the merged numeric options */
  function Request(client: HttpClient, messages: seq<ChatMessage>, opts: RequiredOptions): Request {
    Post(client, "/chat/completions",
         ChatBody(opts.model, messages, opts.temperature, opts.maxTokens, opts.topP,
                  opts.frequencyPenalty, opts.presencePenalty))
  }

  /**
   * What `chatCompletion` does: the completion or the thrown message, and
   * the requests posted, in order. The first request's failure is never
   * reported when a fallback is made; only the fallback's own error is.
   */
  function Attempts(p: Provider, messages: seq<ChatMessage>, options: ChatCompletionOptions, transport: Transport)
    : (out: (Result<string, string>, seq<Request>))
    ensures 1 <= |out.1| <= 2
    ensures out.1[0] == Request(p.client, messages, ResolvedOptions(p.config, options))
    ensures out.0.Failure? ==> |out.0.error| >= |ERROR_PREFIX| && out.0.error[..|ERROR_PREFIX|] == ERROR_PREFIX
  {
    var opts := ResolvedOptions(p.config, options);
    var first := Request(p.client, messages, opts);
    match Attempt(ChoicesShape, transport(first))
    case Success(text) => (Success(text), [first])
    case Failure(error) =>
      if opts.model == REASONER then
        var fallback := Request(p.client, messages, opts.(model := CHAT));
        match Attempt(ChoicesShape, transport(fallback))
        case Success(text) => (Success(FALLBACK_NOTE + text), [first, fallback])
        case Failure(fallbackError) => (Failure(ERROR_PREFIX + ErrorDetail(fallbackError)), [first, fallback])
      else (Failure(ERROR_PREFIX + ErrorDetail(error)), [first])
  }

  /** `chatCompletion`: the first post, then, for the reasoner only, the fallback post */
  method ChatCompletion(p: Provider, messages: seq<ChatMessage>, options: ChatCompletionOptions, transport: Transport)
    returns (r: Result<string, string>, sent: seq<Request>)
    ensures (r, sent) == Attempts(p, messages, options, transport)
  {
    var opts := MergeOptions(GetDefaultOptions(p.config), options);
    var first := Post(p.client, "/chat/completions",
                      ChatBody(opts.model, messages, opts.temperature, opts.maxTokens, opts.topP,
                               opts.frequencyPenalty, opts.presencePenalty));
    assert first == Request(p.client, messages, opts);
    sent := [first];
    var attempt := Attempt(ChoicesShape, transport(first));
    if attempt.Success? {
      return Success(attempt.value), sent;
    }
    if opts.model == REASONER {
      var fallback := Post(p.client, "/chat/completions",
                           ChatBody(CHAT, messages, opts.temperature, opts.maxTokens, opts.topP,
                                    opts.frequencyPenalty, opts.presencePenalty));
      assert fallback == Request(p.client, messages, opts.(model := CHAT));
      sent := sent + [fallback];
      var fallbackAttempt := Attempt(ChoicesShape, transport(fallback));
      assert first == Request(p.client, messages, opts) && sent == [first, fallback];
      if fallbackAttempt.Success? {
        return Success(FALLBACK_NOTE + fallbackAttempt.value), sent;
      }
      return Failure(ERROR_PREFIX + ErrorDetail(fallbackAttempt.error)), sent;
    }
    r := Failure(ERROR_PREFIX + ErrorDetail(attempt.error));
  }

  /**
   * A second request is posted exactly when the first attempt fails (an
   * HTTP error or an envelope without `choices[0]`) and the merged model is
   * `deepseek-reasoner`; it differs from the first only in naming
   * `deepseek-chat`.
   */
  lemma FallbackIff(p: Provider, messages: seq<ChatMessage>, options: ChatCompletionOptions, transport: Transport)
    ensures var (_, sent) := Attempts(p, messages, options, transport);
      && (|sent| == 2 <==> Attempt(ChoicesShape, transport(sent[0])).Failure? && ResolvedOptions(p.config, options).model == REASONER)
      && (|sent| == 2 ==> sent[1] == Request(p.client, messages, ResolvedOptions(p.config, options).(model := CHAT)))
  {
  }

  /**
   * Any other model, including an explicit `deepseek-chat`, behaves like a
   * single-request adapter: one post, its text or its error.
   */
  lemma NoRetryForOtherModels(p: Provider, messages: seq<ChatMessage>, options: ChatCompletionOptions, transport: Transport)
    requires ResolvedOptions(p.config, options).model != REASONER
    ensures var (r, sent) := Attempts(p, messages, options, transport);
      |sent| == 1 && r == Settle(ERROR_PREFIX, ChoicesShape, transport(sent[0]))
  {
  }

  /**
   * After a fallback, the outcome is the fallback's alone: its text behind
   * the note, or its error. Two backends that agree on the fallback request
   * give the same outcome however their first failures differ.
   */
  lemma FallbackOutcome(p: Provider, messages: seq<ChatMessage>, options: ChatCompletionOptions, t1: Transport, t2: Transport)
    requires ResolvedOptions(p.config, options).model == REASONER
    requires var first := Attempts(p, messages, options, t1).1[0];
      Attempt(ChoicesShape, t1(first)).Failure? && Attempt(ChoicesShape, t2(first)).Failure?
    requires var opts := ResolvedOptions(p.config, options);
      t1(Request(p.client, messages, opts.(model := CHAT))) == t2(Request(p.client, messages, opts.(model := CHAT)))
    ensures Attempts(p, messages, options, t1) == Attempts(p, messages, options, t2)
    ensures var (r, sent) := Attempts(p, messages, options, t1);
      && |sent| == 2
      && (r.Success? <==> Attempt(ChoicesShape, t1(sent[1])).Success?)
      && (r.Success? ==> r.value == FALLBACK_NOTE + Attempt(ChoicesShape, t1(sent[1])).value)
      && (r.Failure? ==> r == Settle(ERROR_PREFIX, ChoicesShape, t1(sent[1])))
  {
  }

  /** The reasoner's server error followed by a chat answer "ok" gives the note and "ok". */
  lemma ReasonerDownScenario(p: Provider, transport: Transport)
    requires p.config.defaultModel == REASONER
    requires forall req: Request :: req.body.ChatBody? && req.body.model == REASONER ==>
               transport(req) == Failure(HttpError(None, "Request failed with status code 500"))
    requires forall req: Request :: req.body.ChatBody? && req.body.model == CHAT ==>
               transport(req) == Success(Envelope(Some(["ok"]), None, None))
    ensures Attempts(p, [ChatMessage(User, "hi")], NO_OPTIONS, transport).0
         == Success("Note: Fallback to deepseek-chat due to reasoner error.\n\nok")
  {
    var opts := ResolvedOptions(p.config, NO_OPTIONS);
    var first := Request(p.client, [ChatMessage(User, "hi")], opts);
    var fallback := Request(p.client, [ChatMessage(User, "hi")], opts.(model := CHAT));
    assert transport(first).Failure?;
    assert first.body.model == REASONER && fallback.body.model == CHAT;
    assert transport(fallback) == Success(Envelope(Some(["ok"]), None, None));
    assert FALLBACK_NOTE + "ok" == "Note: Fallback to deepseek-chat due to reasoner error.\n\nok";
  }

  /** `getAvailableModels`: the chat model first, then the reasoner */
  function GetAvailableModels(): (models: seq<ModelInfo>)
    ensures |models| == 2 && DistinctIds(models)
    ensures models[0].id == CHAT && models[1].id == REASONER
  {
    [ ModelInfo("deepseek-chat", "DeepSeek Chat", "General-purpose chat model optimized for dialogue"),
      ModelInfo("deepseek-reasoner", "DeepSeek Reasoner", "Model optimized for reasoning and problem-solving") ]
  }
}
