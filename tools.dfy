/**
 * The logic the two MCP shells (src/index.ts, src/http-server.ts) share:
 * start-up from the environment, the `chat_completion` message
 * normalisation, the `multi_turn_chat` input transform, the error
 * wrapping, and the specification of one call of each tool.
 */
module Tools {
  import opened Wrappers
  import opened Types
  import opened Http
  import opened Base
  import Config
  import Providers

  /** `createProvider(config.providers[config.selectedProvider])` after `loadConfig()` */
  function StartProvider(env: Config.Env): (r: Result<Provider, string>)
    ensures r.Success? <==> Config.LoadConfig(env).Success?
    ensures r.Failure? ==> r.error == Config.LoadConfig(env).error
    ensures r.Success? ==> Providers.Valid(r.value) && r.value.providerType == Config.Selected(env)
  {
    match Config.LoadConfig(env)
    case Failure(error) => Failure(error)
    case Success(config) =>
      Config.LoadedSelectionBuilds(env);
      Providers.CreateProvider(config.providers[config.selectedProvider])
  }

  const NO_MESSAGES: string := "Either 'message' or 'messages' must be provided"

  /**
   * `chat_completion`'s normalisation: a truthy `message` becomes a single
   * user turn and `messages` is then ignored; otherwise `messages`, even an
   * empty array, is taken as given.
   */
  function NormalizeMessages(message: Option<string>, messages: Option<seq<ChatMessage>>): (r: Result<seq<ChatMessage>, string>)
    ensures r.Failure? <==> (message.None? || message.value == "") && messages.None?
    ensures r.Failure? ==> r.error == NO_MESSAGES
    ensures message.Some? && message.value != "" ==> r == Success([ChatMessage(User, message.value)])
    ensures (message.None? || message.value == "") && messages.Some? ==> r == Success(messages.value)
  {
    if message.Some? && message.value != "" then Success([ChatMessage(User, message.value)])
    else if messages.Some? then Success(messages.value)
    else Failure(NO_MESSAGES)
  }

  /** `Provider error: <message>`, the wrapping of every error thrown by the provider call */
  function ProviderError(message: string): string {
    "Provider error: " + message
  }

  /** A `multi_turn_chat` turn: a role and `{type: 'text', text}` content */
  datatype Turn = Turn(role: Role, text: string)

  /** The `messages` argument before the schema's transform: a string or an array of turns */
  datatype MultiTurnInput = Plain(text: string) | Turns(turns: seq<Turn>)

  /** The schema's transform: a string becomes one user turn */
  function Transform(input: MultiTurnInput): (turns: seq<Turn>)
    ensures input.Plain? ==> turns == [Turn(User, input.text)]
    ensures input.Turns? ==> turns == input.turns
  {
    match input
    case Plain(text) => [Turn(User, text)]
    case Turns(turns) => turns
  }

  /** Reading `.role` of `args.messages[0]` when the array is empty */
  const UNDEFINED_TURN: string := "Cannot read properties of undefined (reading 'role')"

  /** `{role: newMessage.role, content: newMessage.content.text}` for `newMessage = args.messages[0]` */
  function NewMessage(turns: seq<Turn>): (r: Result<ChatMessage, string>)
    ensures r.Failure? <==> turns == []
    ensures r.Success? ==> r.value == ChatMessage(turns[0].role, turns[0].text)
  {
    if turns == [] then Failure(UNDEFINED_TURN) else Success(ChatMessage(turns[0].role, turns[0].text))
  }

  /** The text a successful tool call returns, or the message of the error it throws */
  datatype ToolReply = ToolReply(result: Result<string, string>, sent: seq<Request>)

  /**
   * One `chat_completion` call: a normalisation error is thrown as it is,
   * before any request; a provider error is wrapped.
   */
  function ChatTool(p: Provider, message: Option<string>, messages: Option<seq<ChatMessage>>,
                    options: ChatCompletionOptions, transport: Transport): (r: ToolReply)
    ensures r.sent == [] <==> NormalizeMessages(message, messages).Failure?
    ensures |r.sent| <= 2
  {
    match NormalizeMessages(message, messages)
    case Failure(error) => ToolReply(Failure(error), [])
    case Success(normalized) =>
      var (reply, sent) := Providers.Completion(p, normalized, options, transport);
      match reply
      case Success(text) => ToolReply(Success(text), sent)
      case Failure(error) => ToolReply(Failure(ProviderError(error)), sent)
  }

  /**
   * One `multi_turn_chat` call from `history`: the reply and the history
   * after it. The new turn is appended before the provider is called and
   * stays when the call fails; the reply is appended only on success. An
   * empty array fails before anything is appended.
   */
  function MultiTurnStep(p: Provider, history: seq<ChatMessage>, input: MultiTurnInput,
                         options: ChatCompletionOptions, transport: Transport)
    : (out: (ToolReply, seq<ChatMessage>))
    ensures history <= out.1 && |out.1| <= |history| + 2
    ensures out.0.sent == [] <==> Transform(input) == []
  {
    match NewMessage(Transform(input))
    case Failure(error) => (ToolReply(Failure(ProviderError(error)), []), history)
    case Success(message) =>
      var pushed := history + [message];
      var (reply, sent) := Providers.Completion(p, pushed, options, transport);
      match reply
      case Success(text) => (ToolReply(Success(text), sent), pushed + [ChatMessage(Assistant, text)])
      case Failure(error) => (ToolReply(Failure(ProviderError(error)), sent), pushed)
  }

  /**
   * The history only grows: by the new turn and the reply on success, by the
   * new turn alone on a provider failure, by nothing for an empty array; the
   * provider sees the whole history including the new turn, and the tool
   * returns exactly the reply it stored.
   */
  lemma MultiTurnGrowth(p: Provider, history: seq<ChatMessage>, input: MultiTurnInput,
                        options: ChatCompletionOptions, transport: Transport)
    ensures var (reply, after) := MultiTurnStep(p, history, input, options, transport);
      && |history| <= |after| <= |history| + 2
      && after[..|history|] == history
      && (Transform(input) == [] ==> after == history && reply.sent == [] && reply.result == Failure(ProviderError(UNDEFINED_TURN)))
      && (Transform(input) != [] ==>
            var message := ChatMessage(Transform(input)[0].role, Transform(input)[0].text);
            && after[|history|] == message
            && reply.sent == Providers.Completion(p, history + [message], options, transport).1
            && (reply.result.Success? ==> after == history + [message, ChatMessage(Assistant, reply.result.value)])
            && (reply.result.Failure? ==> after == history + [message]))
  {
    var (reply, after) := MultiTurnStep(p, history, input, options, transport);
    if Transform(input) != [] {
      var message := ChatMessage(Transform(input)[0].role, Transform(input)[0].text);
      assert (history + [message])[..|history|] == history;
      assert (history + [message] + [ChatMessage(Assistant, "")])[..|history|] == history;
      if reply.result.Success? {
        assert after == history + [message] + [ChatMessage(Assistant, reply.result.value)];
        assert after[..|history|] == history;
      }
    }
  }

  /** A plain string is stored as a user turn with that text. */
  lemma PlainInputIsUserTurn(p: Provider, history: seq<ChatMessage>, text: string,
                             options: ChatCompletionOptions, transport: Transport)
    ensures MultiTurnStep(p, history, Plain(text), options, transport).1[|history|] == ChatMessage(User, text)
  {
    MultiTurnGrowth(p, history, Plain(text), options, transport);
  }

  /** Only the first turn of an array is used; the others are ignored. */
  lemma OnlyFirstTurnUsed(p: Provider, history: seq<ChatMessage>, first: Turn, rest1: seq<Turn>, rest2: seq<Turn>,
                          options: ChatCompletionOptions, transport: Transport)
    ensures MultiTurnStep(p, history, Turns([first] + rest1), options, transport)
         == MultiTurnStep(p, history, Turns([first] + rest2), options, transport)
  {
    assert NewMessage([first] + rest1) == NewMessage([first] + rest2);
  }

  /**
   * Two successful calls leave the history as it was plus, for each call,
   * the new turn then the reply.
   */
  lemma TwoSuccessfulTurns(p: Provider, history: seq<ChatMessage>, a: Turn, b: Turn,
                           options: ChatCompletionOptions, transport: Transport)
    requires MultiTurnStep(p, history, Turns([a]), options, transport).0.result.Success?
    requires var h1 := MultiTurnStep(p, history, Turns([a]), options, transport).1;
      MultiTurnStep(p, h1, Turns([b]), options, transport).0.result.Success?
    ensures var (r1, h1) := MultiTurnStep(p, history, Turns([a]), options, transport);
      var (r2, h2) := MultiTurnStep(p, h1, Turns([b]), options, transport);
      h2 == history + [ChatMessage(a.role, a.text), ChatMessage(Assistant, r1.result.value),
                       ChatMessage(b.role, b.text), ChatMessage(Assistant, r2.result.value)]
  {
    var (r1, h1) := MultiTurnStep(p, history, Turns([a]), options, transport);
    MultiTurnGrowth(p, history, Turns([a]), options, transport);
    MultiTurnGrowth(p, h1, Turns([b]), options, transport);
  }

  /**
   * A `chat_completion` call posts nothing when normalisation fails, and its
   * errors are the normalisation message or a provider message wrapped once.
   */
  lemma ChatToolErrors(p: Provider, message: Option<string>, messages: Option<seq<ChatMessage>>,
                       options: ChatCompletionOptions, transport: Transport)
    ensures var reply := ChatTool(p, message, messages, options, transport);
      && (NormalizeMessages(message, messages).Failure? ==> reply == ToolReply(Failure(NO_MESSAGES), []))
      && (NormalizeMessages(message, messages).Success? ==>
            var (r, sent) := Providers.Completion(p, NormalizeMessages(message, messages).value, options, transport);
            && reply.sent == sent
            && (r.Success? ==> reply.result == r)
            && (r.Failure? ==> reply.result == Failure(ProviderError(r.error))))
  {
  }

  /** An empty `message` does not count as given: `messages` is used, or the call fails. */
  lemma EmptyMessageIgnored(messages: Option<seq<ChatMessage>>)
    ensures NormalizeMessages(Some(""), messages) == NormalizeMessages(None, messages)
  {
  }
}
