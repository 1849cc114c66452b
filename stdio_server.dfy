/**
 * The stdio shell (src/index.ts): one server per process, holding the
 * provider built at start-up and one conversation history shared by every
 * `multi_turn_chat` call. Both tools call the provider with no options.
 */
module StdioServer {
  import opened Wrappers
  import opened Types
  import opened Http
  import opened Base
  import Providers
  import Tools

  class MultiProviderServer {
    const provider: Provider
    var conversationHistory: seq<ChatMessage>

    /** The constructor, once `createProvider` has succeeded: the history starts empty */
    constructor(provider: Provider)
      ensures this.provider == provider && conversationHistory == []
    {
      this.provider := provider;
      conversationHistory := [];
    }

    /** The `chat_completion` handler: the history is neither read nor changed */
    method ChatCompletionTool(message: Option<string>, messages: Option<seq<ChatMessage>>, transport: Transport)
      returns (reply: Tools.ToolReply)
      ensures reply == Tools.ChatTool(provider, message, messages, NO_OPTIONS, transport)
    {
      var normalized := Tools.NormalizeMessages(message, messages);
      if normalized.Failure? {
        return Tools.ToolReply(Failure(normalized.error), []);
      }
      var r, sent := Providers.ChatCompletion(provider, normalized.value, NO_OPTIONS, transport);
      if r.Success? {
        reply := Tools.ToolReply(Success(r.value), sent);
      } else {
        reply := Tools.ToolReply(Failure(Tools.ProviderError(r.error)), sent);
      }
    }

    /** The `multi_turn_chat` handler: push the new turn, call the provider on the whole history, push the reply */
    method MultiTurnChat(input: Tools.MultiTurnInput, transport: Transport) returns (reply: Tools.ToolReply)
      modifies this
      ensures (reply, conversationHistory) == Tools.MultiTurnStep(provider, old(conversationHistory), input, NO_OPTIONS, transport)
    {
      var newMessage := Tools.NewMessage(Tools.Transform(input));
      if newMessage.Failure? {
        return Tools.ToolReply(Failure(Tools.ProviderError(newMessage.error)), []);
      }
      conversationHistory := conversationHistory + [newMessage.value];
      var r, sent := Providers.ChatCompletion(provider, conversationHistory, NO_OPTIONS, transport);
      if r.Failure? {
        return Tools.ToolReply(Failure(Tools.ProviderError(r.error)), sent);
      }
      conversationHistory := conversationHistory + [ChatMessage(Assistant, r.value)];
      reply := Tools.ToolReply(Success(r.value), sent);
    }
  }
}
