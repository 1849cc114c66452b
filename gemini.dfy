/**
 * The Gemini adapter (src/providers/gemini.ts): the key travels in the query
 * string, roles are renamed (`assistant` to `model`), system text is folded
 * into the first user entry, and `candidates[0].content.parts[0].text` comes
 * back.
 */
module Gemini {
  import opened Wrappers
  import opened Types
  import opened Http
  import opened Base

  const DEFAULT_BASE_URL: string := "https://generativelanguage.googleapis.com/v1beta"
  const ERROR_PREFIX: string := "Gemini API error: "
  const SYSTEM_LABEL: string := "System: "
  const SEPARATOR: string := "\n\n"

  /** No authentication header: the key is sent in the request path */
  function Client(config: ProviderConfig): HttpClient {
    HttpClient(BaseUrlOr(config.baseUrl, DEFAULT_BASE_URL), map["Content-Type" := JSON_CONTENT_TYPE])
  }

  /** `new GeminiProvider(config)` */
  function New(config: ProviderConfig): (r: Result<Provider, string>)
    ensures r.Failure? <==> config.apiKey == ""
    ensures r.Success? ==> r.value == Construct(config, Client(config), GeminiAdapter)
  {
    match ValidateApiKey(config.providerType, config)
    case Some(error) => Failure(error)
    case None => Success(Construct(config, Client(config), GeminiAdapter))
  }

  // ---------------------------------------------------------------------
  // convertToGeminiMessages
  // ---------------------------------------------------------------------

  function GeminiRoleFor(role: Role): GeminiRole {
    if role == Assistant then GeminiModel else GeminiUser
  }

  /** `{role, parts: [{text}]}` */
  function Entry(role: GeminiRole, text: string): GeminiContent {
    GeminiContent(role, [GeminiPart(text)])
  }

  /** Every entry has exactly one part, so `parts[0]` is always defined */
  predicate OnePartEach(entries: seq<GeminiContent>) {
    forall k :: 0 <= k < |entries| ==> |entries[k].parts| == 1
  }

  function Text(entry: GeminiContent): string
    requires |entry.parts| == 1
  {
    entry.parts[0].text
  }

  /** `findIndex(m => m.role === 'user')` */
  function FirstUserIndex(entries: seq<GeminiContent>): (k: int)
    ensures -1 <= k < |entries|
    ensures k >= 0 ==> entries[k].role == GeminiUser
    ensures forall j :: 0 <= j < |entries| && (k < 0 || j < k) ==> entries[j].role != GeminiUser
  {
    if entries == [] then -1
    else if entries[0].role == GeminiUser then 0
    else
      var k := FirstUserIndex(entries[1..]);
      if k < 0 then -1 else k + 1
  }

  /** One iteration of the conversion loop, applied to the entries built so far */
  function Step(entries: seq<GeminiContent>, message: ChatMessage): (r: seq<GeminiContent>)
    requires OnePartEach(entries)
    ensures OnePartEach(r)
    ensures |entries| <= |r| <= |entries| + 1
    ensures message.role != System ==> |r| == |entries| + 1
    ensures forall k :: 0 <= k < |entries| ==> r[k].role == entries[k].role
  {
    if message.role == System then
      var systemContent := SYSTEM_LABEL + message.content;
      if |entries| == 0 then [Entry(GeminiUser, systemContent)]
      else
        var k := FirstUserIndex(entries);
        if k >= 0 then
          entries[k := entries[k].(parts := entries[k].parts[0 := GeminiPart(systemContent + SEPARATOR + Text(entries[k]))])]
        else entries
    else entries + [Entry(GeminiRoleFor(message.role), message.content)]
  }

  /** What `convertToGeminiMessages` returns: the loop as a left fold */
  function GeminiMessages(messages: seq<ChatMessage>): (r: seq<GeminiContent>)
    ensures OnePartEach(r)
    ensures |r| <= |messages|
    decreases |messages|
  {
    if messages == [] then []
    else Step(GeminiMessages(messages[..|messages| - 1]), messages[|messages| - 1])
  }

  /** `convertToGeminiMessages`: pushes entries and rewrites `parts[0].text` in place */
  method ConvertToGeminiMessages(messages: seq<ChatMessage>) returns (geminiMessages: seq<GeminiContent>)
    ensures geminiMessages == GeminiMessages(messages)
  {
    geminiMessages := [];
    for i := 0 to |messages|
      invariant geminiMessages == GeminiMessages(messages[..i])
    {
      assert messages[..i + 1][..i] == messages[..i];
      var message := messages[i];
      if message.role == System {
        var systemContent := SYSTEM_LABEL + message.content;
        if |geminiMessages| == 0 {
          geminiMessages := geminiMessages + [GeminiContent(GeminiUser, [GeminiPart(systemContent)])];
        } else {
          var firstUserIndex := FirstUserIndex(geminiMessages);
          if firstUserIndex >= 0 {
            var entry := geminiMessages[firstUserIndex];
            var parts := entry.parts[0 := GeminiPart(systemContent + SEPARATOR + entry.parts[0].text)];
            geminiMessages := geminiMessages[firstUserIndex := entry.(parts := parts)];
          }
        }
      } else {
        var role := if message.role == Assistant then GeminiModel else GeminiUser;
        geminiMessages := geminiMessages + [GeminiContent(role, [GeminiPart(message.content)])];
      }
    }
    assert messages[..|messages|] == messages;
  }

  // ---------------------------------------------------------------------
  // A closed form of the conversion
  // ---------------------------------------------------------------------

  /** One entry per non-system message, in order, roles renamed */
  function NonSystemEntries(messages: seq<ChatMessage>): seq<GeminiContent>
    decreases |messages|
  {
    if messages == [] then []
    else
      var last := messages[|messages| - 1];
      NonSystemEntries(messages[..|messages| - 1])
        + (if last.role == System then [] else [Entry(GeminiRoleFor(last.role), last.content)])
  }

  predicate OpensWithSystem(messages: seq<ChatMessage>) {
    |messages| > 0 && messages[0].role == System
  }

  /**
   * The entries before any merging: a leading user entry for an opening
   * system message, then one entry per non-system message.
   */
  function PlainEntries(messages: seq<ChatMessage>): seq<GeminiContent> {
    (if OpensWithSystem(messages) then [Entry(GeminiUser, SYSTEM_LABEL + messages[0].content)] else [])
      + NonSystemEntries(messages)
  }

  /**
   * The text merged in front of the first user entry: each later system
   * message adds "System: <text>\n\n" in front, the latest outermost; a
   * system message arriving while there is no user entry yet is dropped.
   */
  function SystemPreamble(messages: seq<ChatMessage>): string
    decreases |messages|
  {
    if |messages| <= 1 then ""
    else
      var earlier := messages[..|messages| - 1];
      var last := messages[|messages| - 1];
      if last.role == System && FirstUserIndex(PlainEntries(earlier)) >= 0
      then SYSTEM_LABEL + last.content + SEPARATOR + SystemPreamble(earlier)
      else SystemPreamble(earlier)
  }

  /** The plain entries with `preamble` put in front of the first user entry's text */
  function WithPreamble(entries: seq<GeminiContent>, preamble: string): seq<GeminiContent>
    requires OnePartEach(entries)
  {
    var k := FirstUserIndex(entries);
    if k < 0 then entries else entries[k := Entry(GeminiUser, preamble + Text(entries[k]))]
  }

  function NonSystemCount(messages: seq<ChatMessage>): nat
    decreases |messages|
  {
    if messages == [] then 0
    else NonSystemCount(messages[..|messages| - 1]) + (if messages[|messages| - 1].role == System then 0 else 1)
  }

  lemma {:induction false} NonSystemEntriesShape(messages: seq<ChatMessage>)
    ensures OnePartEach(NonSystemEntries(messages))
    ensures |NonSystemEntries(messages)| == NonSystemCount(messages)
    decreases |messages|
  {
    if messages != [] {
      NonSystemEntriesShape(messages[..|messages| - 1]);
    }
  }

  /** Appending a message extends the plain entries of a non-empty conversation at the end */
  lemma PlainEntriesSnoc(earlier: seq<ChatMessage>, last: ChatMessage)
    requires |earlier| > 0
    ensures PlainEntries(earlier + [last]) ==
              PlainEntries(earlier) + (if last.role == System then [] else [Entry(GeminiRoleFor(last.role), last.content)])
  {
    var messages := earlier + [last];
    assert messages[..|messages| - 1] == earlier;
    assert messages[0] == earlier[0];
  }

  lemma FirstUserIndexOfAppend(entries: seq<GeminiContent>, more: seq<GeminiContent>)
    requires FirstUserIndex(entries) >= 0
    ensures FirstUserIndex(entries + more) == FirstUserIndex(entries)
  {
    var k := FirstUserIndex(entries);
    assert (entries + more)[k] == entries[k];
    assert forall j :: 0 <= j < k ==> (entries + more)[j] == entries[j];
  }

  lemma FirstUserIndexOfWithPreamble(entries: seq<GeminiContent>, preamble: string)
    requires OnePartEach(entries)
    ensures |WithPreamble(entries, preamble)| == |entries|
    ensures OnePartEach(WithPreamble(entries, preamble))
    ensures FirstUserIndex(WithPreamble(entries, preamble)) == FirstUserIndex(entries)
  {
    var w := WithPreamble(entries, preamble);
    var k := FirstUserIndex(entries);
    var k' := FirstUserIndex(w);
    assert forall j :: 0 <= j < |entries| ==> w[j].role == entries[j].role;
    if k >= 0 && k' >= 0 {
      assert k' <= k && k <= k';
    }
  }

  lemma WithEmptyPreamble(entries: seq<GeminiContent>)
    requires OnePartEach(entries)
    ensures WithPreamble(entries, "") == entries
  {
    var k := FirstUserIndex(entries);
    if k >= 0 {
      var t := Text(entries[k]);
      assert entries[k].parts == [GeminiPart(t)];
      assert "" + t == t;
      assert entries[k] == Entry(GeminiUser, t);
    }
  }

  /** While there is no user entry, no system text has been kept */
  lemma {:induction false} NoUserEntryNoPreamble(messages: seq<ChatMessage>)
    requires FirstUserIndex(PlainEntries(messages)) < 0
    ensures SystemPreamble(messages) == ""
    decreases |messages|
  {
    if |messages| > 1 {
      var earlier := messages[..|messages| - 1];
      var last := messages[|messages| - 1];
      assert messages == earlier + [last];
      PlainEntriesSnoc(earlier, last);
      NonSystemEntriesShape(earlier);
      if FirstUserIndex(PlainEntries(earlier)) >= 0 {
        FirstUserIndexOfAppend(PlainEntries(earlier),
                               if last.role == System then [] else [Entry(GeminiRoleFor(last.role), last.content)]);
        assert false;
      }
      NoUserEntryNoPreamble(earlier);
    }
  }

  lemma PlainEntriesNonEmpty(messages: seq<ChatMessage>)
    requires |messages| > 0
    ensures |PlainEntries(messages)| > 0
    ensures OnePartEach(PlainEntries(messages))
  {
    NonSystemEntriesShape(messages);
    if !OpensWithSystem(messages) {
      var m := messages[|messages| - 1];
      if |messages| == 1 {
        assert messages[..0] == [];
      } else {
        var earlier := messages[..|messages| - 1];
        PlainEntriesNonEmpty(earlier);
        PlainEntriesSnoc(earlier, m);
        assert messages == earlier + [m];
      }
    }
  }

  /** The unfolding of the three specification functions on a non-empty prefix plus one message */
  lemma Unfold(earlier: seq<ChatMessage>, last: ChatMessage)
    requires |earlier| > 0
    ensures GeminiMessages(earlier + [last]) == Step(GeminiMessages(earlier), last)
    ensures SystemPreamble(earlier + [last]) ==
              if last.role == System && FirstUserIndex(PlainEntries(earlier)) >= 0
              then SYSTEM_LABEL + last.content + SEPARATOR + SystemPreamble(earlier)
              else SystemPreamble(earlier)
  {
    var messages := earlier + [last];
    assert messages[..|messages| - 1] == earlier;
  }

  /** A system message after the first puts its text in front of whatever preamble the first user entry has */
  lemma SystemStepOnEntries(plain: seq<GeminiContent>, pre: string, message: ChatMessage)
    requires OnePartEach(plain) && |plain| > 0 && message.role == System
    ensures OnePartEach(WithPreamble(plain, pre))
    ensures Step(WithPreamble(plain, pre), message) == WithPreamble(plain, SYSTEM_LABEL + message.content + SEPARATOR + pre)
  {
    FirstUserIndexOfWithPreamble(plain, pre);
    var built := WithPreamble(plain, pre);
    var k := FirstUserIndex(plain);
    if k >= 0 {
      var head := SYSTEM_LABEL + message.content + SEPARATOR;
      var t := Text(plain[k]);
      assert Text(built[k]) == pre + t;
      assert head + (pre + t) == (head + pre) + t;
      assert built[k].(parts := built[k].parts[0 := GeminiPart(head + (pre + t))]) == Entry(GeminiUser, head + (pre + t));
    }
  }

  /** The inductive step of the closed form for a system message */
  lemma {:induction false} ClosedFormSystemStep(earlier: seq<ChatMessage>, last: ChatMessage)
    requires |earlier| > 0 && last.role == System
    requires OnePartEach(PlainEntries(earlier))
    requires GeminiMessages(earlier) == WithPreamble(PlainEntries(earlier), SystemPreamble(earlier))
    ensures OnePartEach(PlainEntries(earlier + [last]))
    ensures GeminiMessages(earlier + [last]) == WithPreamble(PlainEntries(earlier + [last]), SystemPreamble(earlier + [last]))
  {
    Unfold(earlier, last);
    PlainEntriesSnoc(earlier, last);
    PlainEntriesNonEmpty(earlier);
    var plain := PlainEntries(earlier);
    var pre := SystemPreamble(earlier);
    assert PlainEntries(earlier + [last]) == plain;
    SystemStepOnEntries(plain, pre, last);
    if FirstUserIndex(plain) < 0 {
      assert SystemPreamble(earlier + [last]) == pre;
      assert WithPreamble(plain, SYSTEM_LABEL + last.content + SEPARATOR + pre) == plain == WithPreamble(plain, pre);
    }
  }

  /** The inductive step of the closed form for a user or assistant message */
  lemma {:induction false} ClosedFormPlainStep(earlier: seq<ChatMessage>, last: ChatMessage)
    requires |earlier| > 0 && last.role != System
    requires OnePartEach(PlainEntries(earlier))
    requires GeminiMessages(earlier) == WithPreamble(PlainEntries(earlier), SystemPreamble(earlier))
    ensures OnePartEach(PlainEntries(earlier + [last]))
    ensures GeminiMessages(earlier + [last]) == WithPreamble(PlainEntries(earlier + [last]), SystemPreamble(earlier + [last]))
  {
    Unfold(earlier, last);
    PlainEntriesSnoc(earlier, last);
    var plain := PlainEntries(earlier);
    var e := Entry(GeminiRoleFor(last.role), last.content);
    assert PlainEntries(earlier + [last]) == plain + [e];
    var pre := SystemPreamble(earlier);
    FirstUserIndexOfWithPreamble(plain, pre);
    if FirstUserIndex(plain) >= 0 {
      FirstUserIndexOfAppend(plain, [e]);
    } else {
      NoUserEntryNoPreamble(earlier);
      WithEmptyPreamble(plain);
      WithEmptyPreamble(plain + [e]);
    }
  }

  /**
   * The conversion, stated without the loop: the plain entries (an opening
   * system message as a leading user entry, then one entry per non-system
   * message with `assistant` renamed to `model`), with every later system
   * message's text placed in front of the first user entry.
   */
  lemma {:induction false} GeminiMessagesClosedForm(messages: seq<ChatMessage>)
    ensures OnePartEach(PlainEntries(messages))
    ensures GeminiMessages(messages) == WithPreamble(PlainEntries(messages), SystemPreamble(messages))
    decreases |messages|
  {
    NonSystemEntriesShape(messages);
    if messages == [] {
    } else if |messages| == 1 {
      assert messages[..0] == [];
      WithEmptyPreamble(PlainEntries(messages));
    } else {
      var earlier := messages[..|messages| - 1];
      var last := messages[|messages| - 1];
      assert messages == earlier + [last];
      GeminiMessagesClosedForm(earlier);
      if last.role == System {
        ClosedFormSystemStep(earlier, last);
      } else {
        ClosedFormPlainStep(earlier, last);
      }
    }
  }

  /**
   * Length: one entry per non-system message, plus one exactly when the
   * first message is a system message.
   */
  lemma GeminiMessagesLength(messages: seq<ChatMessage>)
    ensures |GeminiMessages(messages)| == NonSystemCount(messages) + (if OpensWithSystem(messages) then 1 else 0)
  {
    GeminiMessagesClosedForm(messages);
    FirstUserIndexOfWithPreamble(PlainEntries(messages), SystemPreamble(messages));
    NonSystemEntriesShape(messages);
  }

  /** Every entry but the first user entry is the plain entry at its position. */
  lemma OnlyFirstUserEntryRewritten(messages: seq<ChatMessage>, j: int)
    requires 0 <= j < |PlainEntries(messages)|
    requires j != FirstUserIndex(PlainEntries(messages))
    ensures |GeminiMessages(messages)| == |PlainEntries(messages)|
    ensures GeminiMessages(messages)[j] == PlainEntries(messages)[j]
  {
    GeminiMessagesClosedForm(messages);
    FirstUserIndexOfWithPreamble(PlainEntries(messages), SystemPreamble(messages));
  }

  /** A system message after an assistant turn, with no user entry yet, is dropped. */
  lemma SystemAfterAssistantDropped(a: string, s: string)
    ensures GeminiMessages([ChatMessage(Assistant, a), ChatMessage(System, s)]) == [Entry(GeminiModel, a)]
  {
    var ms := [ChatMessage(Assistant, a), ChatMessage(System, s)];
    assert ms[..1] == [ChatMessage(Assistant, a)];
    assert ms[..1][..0] == [];
    var built := [Entry(GeminiModel, a)];
    assert GeminiMessages(ms[..1]) == built;
    assert built[1..] == [];
    assert FirstUserIndex(built) == -1;
  }

  /** An opening system message becomes its own user entry; the next user turn is not merged into it. */
  lemma OpeningSystemStandsAlone(s: string, u: string)
    ensures GeminiMessages([ChatMessage(System, s), ChatMessage(User, u)])
         == [Entry(GeminiUser, "System: " + s), Entry(GeminiUser, u)]
  {
    var ms := [ChatMessage(System, s), ChatMessage(User, u)];
    assert ms[..1] == [ChatMessage(System, s)];
    assert ms[..1][..0] == [];
    assert GeminiMessages(ms[..1]) == [Entry(GeminiUser, "System: " + s)];
  }

  /** A later system message is merged in front of the first user entry. */
  lemma LaterSystemMerged(u: string, a: string, s: string)
    ensures GeminiMessages([ChatMessage(User, u), ChatMessage(Assistant, a), ChatMessage(System, s)])
         == [Entry(GeminiUser, "System: " + s + "\n\n" + u), Entry(GeminiModel, a)]
  {
    var ms := [ChatMessage(User, u), ChatMessage(Assistant, a), ChatMessage(System, s)];
    assert ms[..2] == [ChatMessage(User, u), ChatMessage(Assistant, a)];
    assert ms[..2][..1] == [ChatMessage(User, u)];
    assert ms[..2][..1][..0] == [];
    var built := [Entry(GeminiUser, u), Entry(GeminiModel, a)];
    assert GeminiMessages(ms[..2][..1]) == [Entry(GeminiUser, u)];
    assert GeminiMessages(ms[..2]) == built;
    assert FirstUserIndex(built) == 0;
    var merged := SYSTEM_LABEL + s + SEPARATOR + Text(built[0]);
    assert merged == "System: " + s + "\n\n" + u;
    assert built[0].(parts := built[0].parts[0 := GeminiPart(merged)]) == Entry(GeminiUser, merged);
  }

  // ---------------------------------------------------------------------
  // Request and response
  // ---------------------------------------------------------------------

  function GenerateContentPath(model: string, apiKey: string): string {
    "/models/" + model + ":generateContent?key=" + apiKey
  }

  /** The one request `chatCompletion` posts: penalties are not sent */
  function Request(p: Provider, messages: seq<ChatMessage>, opts: RequiredOptions): Request {
    Post(p.client, GenerateContentPath(opts.model, p.config.apiKey),
         GeminiBody(GeminiMessages(messages), GenerationConfig(opts.temperature, opts.maxTokens, opts.topP)))
  }

  /** `chatCompletion` */
  method ChatCompletion(p: Provider, messages: seq<ChatMessage>, options: ChatCompletionOptions, transport: Transport)
    returns (r: Result<string, string>, sent: seq<Request>)
    ensures sent == [Request(p, messages, ResolvedOptions(p.config, options))]
    ensures r == Settle(ERROR_PREFIX, CandidatesShape, transport(sent[0]))
  {
    var opts := MergeOptions(GetDefaultOptions(p.config), options);
    var geminiMessages := ConvertToGeminiMessages(messages);
    var request := Post(p.client, "/models/" + opts.model + ":generateContent?key=" + p.config.apiKey,
                        GeminiBody(geminiMessages, GenerationConfig(opts.temperature, opts.maxTokens, opts.topP)));
    sent := [request];
    var reply := transport(request);
    match reply {
      case Success(envelope) =>
        if envelope.candidates.Some? && |envelope.candidates.value| > 0 && |envelope.candidates.value[0]| > 0 {
          r := Success(envelope.candidates.value[0][0]);
        } else {
          // 'No response generated', or a missing part: neither is an axios error
          r := Failure(ERROR_PREFIX + ErrorDetail(NonHttpError));
        }
      case Failure(error) =>
        r := Failure(ERROR_PREFIX + ErrorDetail(error));
    }
  }

  /** An empty candidate list surfaces as "Gemini API error: Unknown error". */
  lemma NoCandidatesIsUnknownError(e: Envelope)
    requires e.candidates.None? || e.candidates.value == []
    ensures Settle(ERROR_PREFIX, CandidatesShape, Success(e)) == Failure("Gemini API error: Unknown error")
  {
    assert ERROR_PREFIX + UNKNOWN_ERROR == "Gemini API error: Unknown error";
  }

  /** `getAvailableModels` */
  function GetAvailableModels(): (models: seq<ModelInfo>)
    ensures |models| == 4 && DistinctIds(models)
    ensures models[0].id == "gemini-1.5-pro"
  {
    [ ModelInfo("gemini-1.5-pro", "Gemini 1.5 Pro", "Most capable model for complex reasoning tasks"),
      ModelInfo("gemini-1.5-flash", "Gemini 1.5 Flash", "Fast and efficient model for most tasks"),
      ModelInfo("gemini-1.0-pro", "Gemini 1.0 Pro", "Previous generation model for general use"),
      ModelInfo("gemini-exp-1206", "Gemini Experimental 1206", "Experimental model with latest improvements") ]
  }
}
