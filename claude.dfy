/**
 * The Claude adapter (src/providers/claude.ts): an `x-api-key` header, the
 * Anthropic message format (no system role), `content[0].text` back.
 */
module Claude {
  import opened Wrappers
  import opened Types
  import opened Http
  import opened Base

  const DEFAULT_BASE_URL: string := "https://api.anthropic.com/v1"
  const ANTHROPIC_VERSION: string := "2023-06-01"
  const ERROR_PREFIX: string := "Claude API error: "
  const SYSTEM_MARKER: string := "[System]: "

  function Client(config: ProviderConfig): HttpClient {
    HttpClient(BaseUrlOr(config.baseUrl, DEFAULT_BASE_URL),
               map["x-api-key" := config.apiKey, "Content-Type" := JSON_CONTENT_TYPE,
                   "anthropic-version" := ANTHROPIC_VERSION])
  }

  /** `new ClaudeProvider(config)`: the key is checked before the client is built */
  function New(config: ProviderConfig): (r: Result<Provider, string>)
    ensures r.Failure? <==> config.apiKey == ""
    ensures r.Success? ==> r.value == Construct(config, Client(config), ClaudeAdapter)
    ensures r.Success? ==> r.value.client.headers["anthropic-version"] == "2023-06-01"
  {
    match ValidateApiKey(config.providerType, config)
    case Some(error) => Failure(error)
    case None => Success(Construct(config, Client(config), ClaudeAdapter))
  }

  /** One iteration of the conversion loop: a system turn becomes a marked user turn */
  function ToClaudeMessage(m: ChatMessage): ChatMessage {
    if m.role == System then ChatMessage(User, SYSTEM_MARKER + m.content) else ChatMessage(m.role, m.content)
  }

  /** What `convertToClaudeMessages` returns */
  function ClaudeMessages(messages: seq<ChatMessage>): (r: seq<ChatMessage>)
    ensures |r| == |messages|
  {
    if messages == [] then [] else [ToClaudeMessage(messages[0])] + ClaudeMessages(messages[1..])
  }

  /**
   * The translation keeps order; a system turn becomes a user
   * turn reading "[System]: " + its text, every other turn passes unchanged.
   */
  lemma {:induction false} ClaudeMessagesPointwise(messages: seq<ChatMessage>)
    ensures forall i :: 0 <= i < |messages| && messages[i].role == System ==>
              ClaudeMessages(messages)[i] == ChatMessage(User, SYSTEM_MARKER + messages[i].content)
    ensures forall i :: 0 <= i < |messages| && messages[i].role != System ==>
              ClaudeMessages(messages)[i] == messages[i]
  {
    if messages != [] {
      ClaudeMessagesPointwise(messages[1..]);
      assert forall i :: 1 <= i < |messages| ==> messages[i] == messages[1..][i - 1];
    }
  }

  /** No translated entry has the system role. */
  lemma NoSystemRole(messages: seq<ChatMessage>)
    ensures forall i :: 0 <= i < |ClaudeMessages(messages)| ==> ClaudeMessages(messages)[i].role != System
  {
    ClaudeMessagesPointwise(messages);
  }

  predicate StartsWithMarker(s: string) {
    |SYSTEM_MARKER| <= |s| && s[..|SYSTEM_MARKER|] == SYSTEM_MARKER
  }

  /** Reading a translated turn back: a marked user turn is taken for a system turn */
  function FromClaudeMessage(m: ChatMessage): ChatMessage {
    if m.role == User && StartsWithMarker(m.content) then ChatMessage(System, m.content[|SYSTEM_MARKER|..]) else m
  }

  function FromClaudeMessages(messages: seq<ChatMessage>): seq<ChatMessage> {
    if messages == [] then [] else [FromClaudeMessage(messages[0])] + FromClaudeMessages(messages[1..])
  }

  /**
   * The translation loses nothing: unless a user turn already begins with
   * the "[System]: " marker, the original conversation can be read back.
   */
  lemma {:induction false} ClaudeRoundTrip(messages: seq<ChatMessage>)
    requires forall i :: 0 <= i < |messages| && messages[i].role == User ==> !StartsWithMarker(messages[i].content)
    ensures FromClaudeMessages(ClaudeMessages(messages)) == messages
  {
    if messages != [] {
      var m := messages[0];
      if m.role == System {
        assert (SYSTEM_MARKER + m.content)[..|SYSTEM_MARKER|] == SYSTEM_MARKER;
        assert (SYSTEM_MARKER + m.content)[|SYSTEM_MARKER|..] == m.content;
      }
      assert FromClaudeMessage(ToClaudeMessage(m)) == m;
      assert forall i :: 1 <= i < |messages| ==> messages[i] == messages[1..][i - 1];
      ClaudeRoundTrip(messages[1..]);
    }
  }

  /**
   * Why the round trip needs its precondition: a user turn that already
   * begins with the marker translates to the same entry as a system turn,
   * and is read back as one.
   */
  lemma MarkerCollision(x: string)
    ensures ClaudeMessages([ChatMessage(User, SYSTEM_MARKER + x)]) == ClaudeMessages([ChatMessage(System, x)])
    ensures FromClaudeMessages(ClaudeMessages([ChatMessage(User, SYSTEM_MARKER + x)])) == [ChatMessage(System, x)]
  {
    var marked := SYSTEM_MARKER + x;
    assert marked[..|SYSTEM_MARKER|] == SYSTEM_MARKER;
    assert marked[|SYSTEM_MARKER|..] == x;
    assert ClaudeMessages([ChatMessage(User, marked)]) == [ChatMessage(User, marked)];
    assert ClaudeMessages([ChatMessage(System, x)]) == [ChatMessage(User, marked)];
    assert FromClaudeMessages([ChatMessage(User, marked)]) == [ChatMessage(System, x)];
  }

  /** `convertToClaudeMessages`: a loop pushing one translated turn per input turn */
  method ConvertToClaudeMessages(messages: seq<ChatMessage>) returns (claudeMessages: seq<ChatMessage>)
    ensures claudeMessages == ClaudeMessages(messages)
  {
    claudeMessages := [];
    for i := 0 to |messages|
      invariant |claudeMessages| == i
      invariant forall k :: 0 <= k < i ==> claudeMessages[k] == ToClaudeMessage(messages[k])
    {
      var message := messages[i];
      if message.role == System {
        claudeMessages := claudeMessages + [ChatMessage(User, SYSTEM_MARKER + message.content)];
      } else {
        claudeMessages := claudeMessages + [ChatMessage(message.role, message.content)];
      }
    }
    ClaudeMessagesPointwise(messages);
  }

  /** The one request `chatCompletion` posts: no penalties */
  function Request(client: HttpClient, messages: seq<ChatMessage>, opts: RequiredOptions): Request {
    Post(client, "/messages", ClaudeBody(opts.model, opts.maxTokens, ClaudeMessages(messages), opts.temperature, opts.topP))
  }

  /** `chatCompletion` */
  method ChatCompletion(p: Provider, messages: seq<ChatMessage>, options: ChatCompletionOptions, transport: Transport)
    returns (r: Result<string, string>, sent: seq<Request>)
    ensures sent == [Request(p.client, messages, ResolvedOptions(p.config, options))]
    ensures r == Settle(ERROR_PREFIX, ContentShape, transport(sent[0]))
  {
    var opts := MergeOptions(GetDefaultOptions(p.config), options);
    var claudeMessages := ConvertToClaudeMessages(messages);
    var request := Post(p.client, "/messages",
                        ClaudeBody(opts.model, opts.maxTokens, claudeMessages, opts.temperature, opts.topP));
    sent := [request];
    var reply := transport(request);
    match reply {
      case Success(envelope) =>
        if envelope.content.Some? && |envelope.content.value| > 0 {
          r := Success(envelope.content.value[0]);
        } else {
          r := Failure(ERROR_PREFIX + ErrorDetail(NonHttpError));
        }
      case Failure(error) =>
        r := Failure(ERROR_PREFIX + ErrorDetail(error));
    }
  }

  /** `getAvailableModels` */
  function GetAvailableModels(): (models: seq<ModelInfo>)
    ensures |models| == 5 && DistinctIds(models)
    ensures models[0].id == "claude-3-5-sonnet-20241022"
  {
    [ ModelInfo("claude-3-5-sonnet-20241022", "Claude 3.5 Sonnet", "Most intelligent model with superior performance on complex tasks"),
      ModelInfo("claude-3-5-haiku-20241022", "Claude 3.5 Haiku", "Fastest and most compact model for near-instant responsiveness"),
      ModelInfo("claude-3-opus-20240229", "Claude 3 Opus", "Most powerful model for highly complex tasks"),
      ModelInfo("claude-3-sonnet-20240229", "Claude 3 Sonnet", "Balance of intelligence and speed"),
      ModelInfo("claude-3-haiku-20240307", "Claude 3 Haiku", "Fast and efficient model for everyday tasks") ]
  }
}
