/**
 * The HTTP/SSE shell (src/http-server.ts): every SSE connection builds its
 * own server with its own provider and an empty history. Unlike the stdio
 * shell, both tools forward all six options from their arguments, after the
 * argument schema has filled in its defaults.
 */
module HttpServer {
  import opened Wrappers
  import opened Types
  import opened Http
  import opened Base
  import Providers
  import Tools

  /**
   * The option arguments after the schema's `.default(...)` fill-ins: the
   * model defaults to the provider's configured default model, the numbers
   * to 0.7, 8000, 1.0, 0.1 and 0.
   */
  function SchemaDefaults(p: Provider, args: ChatCompletionOptions): (options: ChatCompletionOptions)
    ensures Complete(options)
  {
    ChatCompletionOptions(
      Some(args.model.GetOr(p.config.defaultModel)),
      Some(args.temperature.GetOr(0.7)),
      Some(args.maxTokens.GetOr(8000.0)),
      Some(args.topP.GetOr(1.0)),
      Some(args.frequencyPenalty.GetOr(0.1)),
      Some(args.presencePenalty.GetOr(0.0)))
  }

  /**
   * The schema's defaults are the provider's own: forwarding the filled-in
   * options merges to the same values as passing the arguments as they came,
   * so the provider makes the same call.
   */
  lemma SchemaDefaultsAreNeutral(p: Provider, messages: seq<ChatMessage>, args: ChatCompletionOptions, transport: Transport)
    ensures ResolvedOptions(p.config, SchemaDefaults(p, args)) == ResolvedOptions(p.config, args)
    ensures Providers.Completion(p, messages, SchemaDefaults(p, args), transport)
         == Providers.Completion(p, messages, args, transport)
  {
    Providers.CompletionSeesOnlyMergedOptions(p, messages, SchemaDefaults(p, args), args, transport);
  }

  /**
   * A session's `multi_turn_chat` with no option arguments behaves exactly
   * like the stdio server's, which passes no options at all.
   */
  lemma SessionMatchesStdio(p: Provider, history: seq<ChatMessage>, input: Tools.MultiTurnInput, transport: Transport)
    ensures Tools.MultiTurnStep(p, history, input, SchemaDefaults(p, NO_OPTIONS), transport)
         == Tools.MultiTurnStep(p, history, input, NO_OPTIONS, transport)
  {
    match Tools.NewMessage(Tools.Transform(input)) {
      case Failure(_) =>
      case Success(message) =>
        SchemaDefaultsAreNeutral(p, history + [message], NO_OPTIONS, transport);
    }
  }

  /** The state `createMcpServer` closes over for one connection */
  class McpSession {
    const provider: Provider
    var conversationHistory: seq<ChatMessage>

    /** `createMcpServer()` for a new connection, once `createProvider` has succeeded */
    constructor(provider: Provider)
      ensures this.provider == provider && conversationHistory == []
    {
      this.provider := provider;
      conversationHistory := [];
    }

    /** The `chat_completion` handler, forwarding the six option arguments */
    method ChatCompletionTool(message: Option<string>, messages: Option<seq<ChatMessage>>,
                              args: ChatCompletionOptions, transport: Transport)
      returns (reply: Tools.ToolReply)
      ensures reply == Tools.ChatTool(provider, message, messages, SchemaDefaults(provider, args), transport)
    {
      var normalized := Tools.NormalizeMessages(message, messages);
      if normalized.Failure? {
        return Tools.ToolReply(Failure(normalized.error), []);
      }
      var options := SchemaDefaults(provider, args);
      var r, sent := Providers.ChatCompletion(provider, normalized.value, options, transport);
      if r.Success? {
        reply := Tools.ToolReply(Success(r.value), sent);
      } else {
        reply := Tools.ToolReply(Failure(Tools.ProviderError(r.error)), sent);
      }
    }

    /** The `multi_turn_chat` handler on this connection's history */
    method MultiTurnChat(input: Tools.MultiTurnInput, args: ChatCompletionOptions, transport: Transport)
      returns (reply: Tools.ToolReply)
      modifies this
      ensures (reply, conversationHistory)
           == Tools.MultiTurnStep(provider, old(conversationHistory), input, SchemaDefaults(provider, args), transport)
    {
      var newMessage := Tools.NewMessage(Tools.Transform(input));
      if newMessage.Failure? {
        return Tools.ToolReply(Failure(Tools.ProviderError(newMessage.error)), []);
      }
      conversationHistory := conversationHistory + [newMessage.value];
      var options := SchemaDefaults(provider, args);
      var r, sent := Providers.ChatCompletion(provider, conversationHistory, options, transport);
      if r.Failure? {
        return Tools.ToolReply(Failure(Tools.ProviderError(r.error)), sent);
      }
      conversationHistory := conversationHistory + [ChatMessage(Assistant, r.value)];
      reply := Tools.ToolReply(Success(r.value), sent);
    }
  }
}
