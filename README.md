# Multi-provider MCP server — a Dafny model

This project models the core of a Model Context Protocol server that puts seven
chat-completion backends behind one interface:

- DeepSeek
- OpenAI
- Azure OpenAI
- Claude
- Mistral
- Codestral
- Gemini

The server exposes two tools, `chat_completion` and `multi_turn_chat`. It talks
to the selected backend over HTTP.

The model covers these parts:

- **Vocabulary** (`types.dfy`). Chat messages, provider configurations,
  completion options and catalog entries. It also has the argument validator
  `isValidChatCompletionArgs`. The validator is written over a JSON value and
  proved equal to an independent typed decoding.
- **HTTP boundary** (`http.dfy`). Each adapter posts one request through its
  client; DeepSeek posts a second one when its reasoner model fails. The network is an oracle parameter: a `Transport` maps each request to
  a response envelope or a failure. Reading the completion out of an envelope
  is modelled, and so is the shared error-message priority of every adapter's
  `catch` block.
- **Provider base** (`base.dfy`). The API-key check, the fixed default options,
  and the `{...defaults, ...options}` merge.
- **Adapters** (one module each). The constructor, the request each adapter
  builds, how it unwraps the reply, its error prefix and its model catalog.
  The code that works step by step is modelled as methods, each proved equal
  to a specification function:
  - Claude's and Gemini's message translation loops are methods with loops,
    proved equal to `Claude.ClaudeMessages` and `Gemini.GeminiMessages`;
  - DeepSeek's reasoner-to-chat fallback is a method with no loop, proved
    equal to `DeepSeek.Attempts`;
  - the dispatch of each `provider.chatCompletion(...)` call to the adapter
    that was built is a method, proved equal to `Providers.Completion`.
- **Configuration** (`config.dfy`). `loadConfig` reads the environment, given as
  a map from variable names to values.
- **The two shells**. `src/index.ts` (stdio) and `src/http-server.ts` (one
  session per SSE connection) are classes. Each holds its provider and a
  mutable `conversationHistory`. Their tool handlers are proved to follow the
  specification functions in `tools.dfy`.
- **Test scenarios** (`simple_test.dfy`). The five cases of the basic test
  suite, stated as lemmas over the model.

## Model

| member | source | states |
|---|---|---|
| Types.IsValidChatCompletionArgs | src/types.ts:159-224 | only an object can pass; exactly what passes is stated by `Types.ValidatorMatchesDecoding` |
| Types.DecodeMessagesIffAllValid | src/types.ts:177-197 | a `messages` array passes the per-element guard exactly when every element decodes to a message with one of the three roles and string content |
| Types.ValidatorMatchesDecoding | src/types.ts:159-224 | the validator accepts exactly the values that decode to typed arguments carrying a non-empty `message` or any `messages` array and respecting the inclusive ranges (`max_tokens` only at least 1) |
| Types.OptionalMessagesIffValid | src/types.ts:177-197 | an optional `messages` field decodes exactly when it is absent or an array of valid messages |
| Types.EmptyMessagesArrayAccepted | src/types.ts:167-169 | `{messages: []}` is accepted: an array is truthy even when empty |
| Types.EmptyMessageAloneRejected | src/types.ts:167-169 | `{message: ""}` alone is rejected: the empty string is falsy |
| Types.NonStringMessageRejected | src/types.ts:172-174 | a present `message` that is not a string is always rejected |
| Types.FractionalMaxTokensAccepted | src/types.ts:207-209 | `max_tokens` 1.5 passes and 0.5 fails: only the lower bound is checked, not integrality |
| Types.BoundsAreInclusive | src/types.ts:203-221 | range ends (temperature 2, top_p 0, penalties ±2) pass; top_p 1.01 fails |
| Types.BadRoleRejected | src/types.ts:182-194 | any arguments whose `messages` array holds, at any position, an object whose role is a string other than system, user or assistant are rejected, whatever the other fields |
| Http.BaseUrlOr | src/providers/openai.ts:13 | an absent or empty configured base URL takes the vendor default, a non-empty one is kept |
| Http.Unwrap | src/providers/openai.ts:35 | the text is read exactly when the list the adapter reads (`choices`, `content`, or `candidates` and its first entry's parts) is present and non-empty, and it is that list's first entry; a malformed envelope fails only as a non-HTTP error |
| Http.ErrorMessagePriority | src/providers/openai.ts:36-38 | the error text is the vendor's `error.message` when present (even empty), else the HTTP client's message, and "Unknown error" for anything that is not an HTTP error |
| Http.MalformedEnvelopeIsUnknownError | src/providers/claude.ts:37-40 | a reply without the expected text surfaces as the prefix followed by "Unknown error" |
| Http.Settle | src/providers/openai.ts:24-38 | a single-request call succeeds exactly when the post succeeds and its envelope holds the text, and every failure message starts with the adapter's prefix |
| Http.SettleReturnsEnvelopeText | src/providers/openai.ts:35 | a successful call returns exactly the text the envelope holds |
| Base.Construct | src/providers/base.ts:7-10 | a provider's `type` and `config` are its configuration's |
| Base.ValidateApiKey | src/providers/base.ts:15-19 | an error exactly when the key is empty, reading "API key is required for <type> provider" |
| Base.GetDefaultOptions | src/providers/base.ts:21-30 | the configured default model, temperature 0.7, 8000 tokens, top_p 1.0, frequency penalty 0.1, presence penalty 0 |
| Base.MergeOptions | src/providers/openai.ts:22 | each field supplied by the caller wins, each absent field takes the default |
| Base.MergeNothingIsDefaults | src/providers/base.ts:21-30 | merging no options yields exactly the defaults |
| Base.MergeCompleteIgnoresDefaults | src/providers/openai.ts:22 | fully supplied options make the defaults irrelevant |
| Base.MergeIdempotent | src/providers/openai.ts:22 | merging the same options again changes nothing |
| Base.DefaultsDependOnlyOnDefaultModel | src/providers/base.ts:21-30 | the defaults depend on the configuration only through its default model |
| OpenAI.New | src/providers/openai.ts:8-19 | construction fails exactly when the key is empty; otherwise it yields a provider with that configuration and a bearer client |
| OpenAI.RequestCarriesMergedOptions | src/providers/openai.ts:21-33 | the body posted to `/chat/completions` carries the caller's messages unchanged and all six options, each the caller's or the default |
| OpenAI.HelloScenario | src/providers/openai.ts:35 | a reply `choices[0].message.content = "hello"` yields exactly "hello" |
| OpenAI.RateLimitedScenario | src/providers/openai.ts:36-38 | a vendor error "rate limited" yields "OpenAI API error: rate limited" |
| OpenAI.GetAvailableModels | src/providers/openai.ts:41-59 | three entries with distinct ids, in catalog order |
| Mistral.New | src/providers/mistral.ts:8-19 | construction fails exactly when the key is empty |
| Mistral.RequestIgnoresPenalties | src/providers/mistral.ts:21-31 | the body carries model, messages, temperature, max_tokens and top_p; the caller's penalties do not change the request |
| Mistral.GetAvailableModels | src/providers/mistral.ts:39-72 | six entries with distinct ids, `mistral-large-latest` first |
| Codestral.New | src/providers/codestral.ts:8-19 | construction fails exactly when the key is empty |
| Codestral.RequestIgnoresPenalties | src/providers/codestral.ts:21-31 | as for Mistral: no penalties reach the request |
| Codestral.GetAvailableModels | src/providers/codestral.ts:39-52 | two entries with distinct ids, `codestral-latest` then `codestral-2405` |
| AzureOpenAI.New | src/providers/azure-openai.ts:9-27 | the key is checked first, then the base URL; on success the deployment is the default model and the client's base URL is the configured one, unchanged |
| AzureOpenAI.DeploymentRouting | src/providers/azure-openai.ts:29-45 | a non-empty model option names the deployment in the URL path, an absent or empty one routes to the default model; the body carries no model, only the messages and the five numeric options |
| AzureOpenAI.GetAvailableModels | src/providers/azure-openai.ts:54-77 | four entries with distinct ids |
| Claude.New | src/providers/claude.ts:8-20 | construction fails exactly when the key is empty; the client carries `anthropic-version: 2023-06-01` |
| Claude.ClaudeMessages | src/providers/claude.ts:43-62 | one translated turn per input turn; what each one is, is stated by `Claude.ClaudeMessagesPointwise` |
| Claude.ClaudeMessagesPointwise | src/providers/claude.ts:43-62 | the translation keeps order; a system turn becomes a user turn reading "[System]: " + its text, every other turn passes unchanged |
| Claude.NoSystemRole | src/providers/claude.ts:47-52 | no translated turn has the system role |
| Claude.ClaudeRoundTrip | src/providers/claude.ts:43-62 | unless a user turn already starts with the marker, the original conversation can be read back from the translation |
| Claude.MarkerCollision | src/providers/claude.ts:47-52 | a user turn that already starts with "[System]: " translates exactly like a system turn and reads back as one, which is why `Claude.ClaudeRoundTrip` needs its precondition |
| Claude.ConvertToClaudeMessages | src/providers/claude.ts:43-62 | the loop returns the specified translation |
| Claude.ChatCompletion | src/providers/claude.ts:22-41 | exactly one post to `/messages` with the translated messages and no penalties; the result is `content[0].text` or the prefixed error |
| Claude.GetAvailableModels | src/providers/claude.ts:64-92 | five entries with distinct ids |
| Gemini.New | src/providers/gemini.ts:8-18 | construction fails exactly when the key is empty |
| Gemini.FirstUserIndex | src/providers/gemini.ts:64 | the index of the first user entry, or -1 when there is none |
| Gemini.Step | src/providers/gemini.ts:53-73 | one iteration keeps one part per entry, adds at most one entry (exactly one for a non-system message) and never changes the role of an entry already built |
| Gemini.GeminiMessages | src/providers/gemini.ts:49-78 | the converted conversation has one part per entry and no more entries than messages |
| Gemini.ConvertToGeminiMessages | src/providers/gemini.ts:49-78 | the loop returns the specified left fold of the per-message step |
| Gemini.GeminiMessagesClosedForm | src/providers/gemini.ts:52-75 | the result is, without the loop, the plain entries (an opening system message as a user entry of its own, then one entry per non-system message with assistant renamed to model) with every later system text put in front of the first user entry, or dropped when there is no user entry |
| Gemini.GeminiMessagesLength | src/providers/gemini.ts:52-75 | one entry per non-system message, plus one when the first message is a system message |
| Gemini.OnlyFirstUserEntryRewritten | src/providers/gemini.ts:62-67 | every entry except the first user entry is exactly its plain entry |
| Gemini.SystemAfterAssistantDropped | src/providers/gemini.ts:64-65 | a system message after an assistant turn, with no user entry yet, vanishes |
| Gemini.OpeningSystemStandsAlone | src/providers/gemini.ts:57-61 | an opening system message becomes its own user entry; the following user turn is not merged into it |
| Gemini.LaterSystemMerged | src/providers/gemini.ts:62-67 | a later system message becomes "System: s\n\n" in front of the first user text |
| Gemini.ChatCompletion | src/providers/gemini.ts:20-47 | exactly one post to `/models/<model>:generateContent?key=<key>` with the translated contents and a generation config without penalties; the result is the first candidate's first part, or the prefixed error |
| Gemini.NoCandidatesIsUnknownError | src/providers/gemini.ts:39-45 | no candidates yields "Gemini API error: Unknown error" |
| Gemini.GetAvailableModels | src/providers/gemini.ts:80-103 | four entries with distinct ids, `gemini-1.5-pro` first |
| DeepSeek.New | src/providers/deepseek.ts:8-19 | construction fails exactly when the key is empty |
| DeepSeek.Attempts | src/providers/deepseek.ts:21-60 | one or two posts, the first with the merged options; every failure starts with "DeepSeek API error: " |
| DeepSeek.ChatCompletion | src/providers/deepseek.ts:21-60 | the method posts and returns exactly what the specification says |
| DeepSeek.FallbackIff | src/providers/deepseek.ts:36-49 | a second post is made exactly when the first attempt fails and the merged model is `deepseek-reasoner`; it differs only in naming `deepseek-chat` |
| DeepSeek.NoRetryForOtherModels | src/providers/deepseek.ts:57-58 | any other model behaves as a single-request adapter |
| DeepSeek.FallbackOutcome | src/providers/deepseek.ts:40-55 | after a fallback the outcome is the fallback's alone: its text behind the note, or its error; the first error is never reported |
| DeepSeek.ReasonerDownScenario | src/providers/deepseek.ts:37-52 | a reasoner failure followed by a chat answer "ok" yields the note followed by "ok" |
| DeepSeek.GetAvailableModels | src/providers/deepseek.ts:62-75 | two entries with distinct ids, `deepseek-chat` first |
| Providers.AdapterTag | src/types.ts:54 | every adapter's tag is one of the seven provider types |
| Providers.CreateProvider | src/providers/index.ts:19-37 | an unknown tag fails with "Unknown provider type: <tag>", an empty key with the key error, and Azure without a base URL with its own error; it succeeds exactly when none of these applies, and then yields a valid provider carrying the configuration |
| Providers.ChatCompletion | src/types.ts:64-69 | dispatching `chatCompletion` to the built adapter returns and posts exactly what that adapter's specification says |
| Providers.Completion | src/types.ts:64-69 | every adapter posts once through the provider's own client, only DeepSeek may post twice, and every failure starts with the adapter's own prefix |
| Providers.FailureReportsVendorMessage | src/providers/openai.ts:36-38 | a single-request adapter reports a backend failure as its prefix plus the error detail, as this `catch` block and the matching ones of the Azure OpenAI, Claude, Mistral, Codestral and Gemini adapters do |
| Providers.CompletionSeesOnlyMergedOptions | src/providers/base.ts:21-30 | option records that merge alike give the same call |
| Config.EnvOr | src/config.ts:14 | a set, non-empty variable wins; an unset or empty one takes the fallback |
| Config.Selected | src/config.ts:9 | the selection is `PROVIDER` when it is set and non-empty, and "deepseek" otherwise |
| Config.VendorOf | src/config.ts:12-60 | every vendor names a non-empty default model, and every vendor but Azure a non-empty default base URL |
| Config.ApiKeyMissing | src/config.ts:65-67 | the start-up key message always opens with "API key is required" |
| Config.Record | src/config.ts:12-60 | each vendor record reads its key, base URL and default model variables over the vendor defaults |
| Config.ProviderRecords | src/config.ts:11-61 | exactly one record per provider type |
| Config.LoadConfig | src/config.ts:8-77 | an unknown selection fails when the selected key is read; an empty selected key fails with the key message; Azure without a base URL fails with its own message; otherwise the selection and all seven records are returned |
| Config.Effective | src/config.ts:14-17 | the environment with its empty variables removed |
| Config.RecordsIgnoreEmpty | src/config.ts:11-61 | empty variables make no difference to any vendor record |
| Config.EmptyIsUnset | src/config.ts:9-61 | setting a variable to the empty string is the same as leaving it unset, for every record and for the outcome |
| Config.RecordsWellFormed | src/config.ts:12-60 | every record's type is its key, every record has a base URL, non-empty except possibly Azure's, and a non-empty default model |
| Config.LoadedSelectionBuilds | src/index.ts:77-100 | a configuration accepted at start-up always builds a provider of the selected type |
| BasicFunctionality.LoadConfigurationScenario | src/__tests__/simple.test.ts:7-12 | a lone DeepSeek key selects DeepSeek with that key and `deepseek-reasoner` as default model |
| BasicFunctionality.CreateProvidersScenario | src/__tests__/simple.test.ts:14-25 | the hand-built DeepSeek configuration builds a DeepSeek provider of type "deepseek" |
| BasicFunctionality.AvailableModelsScenario | src/__tests__/simple.test.ts:27-39 | that provider's catalog has two entries and opens with `deepseek-chat` |
| BasicFunctionality.RequiredApiKeyScenario | src/__tests__/simple.test.ts:41-44 | without a DeepSeek key or a selection, start-up fails with the DeepSeek key message, which starts "API key is required" |
| BasicFunctionality.AzureBaseUrlScenario | src/__tests__/simple.test.ts:46-52 | Azure with a key but no base URL fails with the message naming AZURE_OPENAI_BASE_URL |
| Tools.StartProvider | src/index.ts:76-100 | start-up succeeds exactly when the configuration loads, reports the configuration's error otherwise, and then holds a valid provider of the selected type |
| Tools.NormalizeMessages | src/index.ts:186-193 | a non-empty `message` becomes one user turn and `messages` is ignored; otherwise `messages` is taken as given, even empty; the call fails exactly when neither is given |
| Tools.Transform | src/index.ts:225-236 | a plain string becomes one user turn; an array is kept |
| Tools.NewMessage | src/index.ts:241-245 | the first turn's role and text, failing exactly on an empty array |
| Tools.MultiTurnStep | src/index.ts:238-275 | one `multi_turn_chat` call keeps the history as a prefix, grows it by at most two turns, and posts nothing exactly when the array is empty |
| Tools.MultiTurnGrowth | src/index.ts:238-275 | the history only grows: by the new turn and the reply on success, by the new turn alone on a provider failure, and not at all for an empty array; the provider sees the whole history including the new turn |
| Tools.PlainInputIsUserTurn | src/index.ts:225-248 | a plain string is stored as a user turn with that text |
| Tools.OnlyFirstTurnUsed | src/index.ts:241 | the turns after the first one of an array make no difference |
| Tools.TwoSuccessfulTurns | src/index.ts:248-264 | two successful calls append turn, reply, turn, reply |
| Tools.ChatTool | src/index.ts:185-207 | one `chat_completion` call posts nothing exactly when normalisation fails, and at most two requests otherwise |
| Tools.ChatToolErrors | src/index.ts:185-207 | a normalisation error posts nothing and is reported as it is; a provider error is wrapped once as "Provider error: …" |
| Tools.EmptyMessageIgnored | src/index.ts:187 | an empty `message` counts as absent |
| StdioServer.MultiProviderServer.constructor | src/index.ts:74-100 | the server holds the given provider and an empty history |
| StdioServer.MultiProviderServer.ChatCompletionTool | src/index.ts:185-208 | the handler calls the provider with no options and leaves the history alone |
| StdioServer.MultiProviderServer.MultiTurnChat | src/index.ts:238-275 | the reply and the new history are those of one multi-turn step from the old history, with no options |
| HttpServer.SchemaDefaults | src/http-server.ts:96-101 | the schema's default fill-ins make all six options present |
| HttpServer.SchemaDefaultsAreNeutral | src/http-server.ts:114-121 | the schema's defaults equal the provider's own, so forwarding them changes no call |
| HttpServer.SessionMatchesStdio | src/http-server.ts:168-211 | a session's `multi_turn_chat` without option arguments behaves exactly like the stdio server's |
| HttpServer.McpSession.constructor | src/http-server.ts:83-84 | each connection starts with its provider and an empty history |
| HttpServer.McpSession.ChatCompletionTool | src/http-server.ts:103-132 | the handler forwards the six option arguments after the schema defaults |
| HttpServer.McpSession.MultiTurnChat | src/http-server.ts:168-211 | the reply and the new history are those of one multi-turn step on this connection's history, with the forwarded options |

## Left out

- HTTP transport, headers on the wire, timeouts and retries inside the HTTP
  client are not modelled. The network is the `Transport` oracle, a
  deterministic function from requests to replies. The client's base URL and
  fixed headers are kept as data in each request.
- Concurrency and `async` interleavings are not modelled. In the HTTP/SSE
  shell, two overlapping `multi_turn_chat` calls on one connection could
  interleave their pushes; each handler is modelled as atomic.
- Floating point: temperatures, token counts and penalties are reals.
- MCP registration and resources are not modelled: server names and
  capabilities, the `models://` resources, and the JSON text of the model
  list. The same goes for Express routing, `/health`, the SSE transports map,
  signal handlers and logging, including DeepSeek's `console.error` before the
  fallback.
- The argument schemas' range checks are not modelled. This covers
  `min`/`max`, `positive().int()` and rejection before the handler runs. Only
  the schemas' default fill-ins and the string-to-turn transform are modelled.
- An options object holding an explicit `undefined` is not modelled. In the
  source, a key present with value `undefined` overrides the default in the
  spread. Here a field is either present with a value or absent.
- `PROVIDER` values naming an inherited property of a plain object (such as
  `constructor`) are not modelled. Any selection outside the seven tags is
  treated as a lookup of `undefined`.
- Error messages of runtime `TypeError`s (an unknown `PROVIDER`, an empty
  `multi_turn_chat` array) are written as V8 phrases them. Messages of other
  engines are not modelled.
- A reply envelope whose `choices[0]`, `content[0]` or `candidates[0]` exists
  but lacks the nested field read is not modelled. The envelope keeps only
  the text at the path an adapter reads, and only an absent or empty list is a
  malformed envelope.
- Object identity is not modelled: a provider is a value, and the fresh
  instance each constructor returns, the `instanceof` check of the tests and
  the `models` field of configurations are out of scope (`models` is carried
  but nothing reads it).
- The stdio transport's `run()` and process start-up are not modelled; the
  shells start from a provider already built (`Tools.StartProvider`).
- Providers.GetAvailableModels: states nothing itself. Each adapter's
  `GetAvailableModels` states its own count and distinct ids.
- OpenAI.ChatCompletion: carries no contract of its own. Its behaviour is stated by
  `Http.Settle`, `Providers.Completion`,
  `Providers.FailureReportsVendorMessage` and `OpenAI.RequestCarriesMergedOptions`.
- Mistral.ChatCompletion: carries no contract of its own. Its behaviour is stated by
  `Http.Settle`, `Providers.Completion`,
  `Providers.FailureReportsVendorMessage` and `Mistral.RequestIgnoresPenalties`.
- Codestral.ChatCompletion: carries no contract of its own. Its behaviour is stated by
  `Http.Settle`, `Providers.Completion`,
  `Providers.FailureReportsVendorMessage` and `Codestral.RequestIgnoresPenalties`.
- AzureOpenAI.ChatCompletion: carries no contract of its own. Its behaviour is stated by
  `Http.Settle`, `Providers.Completion`,
  `Providers.FailureReportsVendorMessage` and `AzureOpenAI.DeploymentRouting`.
