/**
 * The HTTP boundary shared by every adapter. Each adapter posts one JSON body
 * through its HTTP client; the network is an oracle (`Transport`) that answers
 * a request with a response envelope or a failure. Only the envelope fields
 * the adapters read are kept.
 */
module Http {
  import opened Wrappers
  import opened Types

  /** The client an adapter builds at construction: its base URL and fixed headers */
  datatype HttpClient = HttpClient(baseUrl: string, headers: map<string, string>)

  const JSON_CONTENT_TYPE: string := "application/json"

  /** Headers of a bearer-token client: `Authorization: Bearer <key>` */
  function BearerHeaders(apiKey: string): map<string, string> {
    map["Authorization" := "Bearer " + apiKey, "Content-Type" := JSON_CONTENT_TYPE]
  }

  /** `config.baseUrl || fallback`: an absent or empty base URL takes the vendor's default */
  function BaseUrlOr(baseUrl: Option<string>, fallback: string): (url: string)
    ensures baseUrl.Some? && baseUrl.value != "" ==> url == baseUrl.value
    ensures (baseUrl.None? || baseUrl.value == "") ==> url == fallback
  {
    if baseUrl.Some? && baseUrl.value != "" then baseUrl.value else fallback
  }

  // Gemini's wire vocabulary.
  datatype GeminiRole = GeminiUser | GeminiModel
  datatype GeminiPart = GeminiPart(text: string)
  datatype GeminiContent = GeminiContent(role: GeminiRole, parts: seq<GeminiPart>)
  datatype GenerationConfig = GenerationConfig(temperature: real, maxOutputTokens: real, topP: real)

  /** The request bodies the adapters send; a field absent from a body cannot be sent. */
  datatype Body =
      /** OpenAI and DeepSeek: model, messages and all five numeric options */
    | ChatBody(model: string, messages: seq<ChatMessage>, temperature: real, maxTokens: real,
               topP: real, frequencyPenalty: real, presencePenalty: real)
      /** Azure OpenAI: the model travels in the URL path instead */
    | DeploymentBody(messages: seq<ChatMessage>, temperature: real, maxTokens: real,
                     topP: real, frequencyPenalty: real, presencePenalty: real)
      /** Mistral and Codestral: no penalties */
    | MistralBody(model: string, messages: seq<ChatMessage>, temperature: real, maxTokens: real, topP: real)
      /** Claude: translated messages, no penalties */
    | ClaudeBody(model: string, maxTokens: real, messages: seq<ChatMessage>, temperature: real, topP: real)
      /** Gemini: translated contents and a nested generation config */
    | GeminiBody(contents: seq<GeminiContent>, generationConfig: GenerationConfig)

  /** `client.post(path, body)` */
  datatype Request = Post(client: HttpClient, path: string, body: Body)

  /**
   * The fields of a response body that some adapter reads:
   * `choices[k].message.content`, `content[k].text`, and
   * `candidates[k].content.parts[j].text`. `None` is a missing field.
   */
  datatype Envelope = Envelope(
    choices: Option<seq<string>>,
    content: Option<seq<string>>,
    candidates: Option<seq<seq<string>>>)

  /**
   * What a `catch` block can see. An axios error carries the vendor's
   * `response.data.error.message`, if any, and its own `message`; any other
   * thrown value (a `TypeError` on a malformed envelope, a plain `Error`) is
   * not an axios error.
   */
  datatype PostError = HttpError(apiMessage: Option<string>, message: string) | NonHttpError

  type Reply = Result<Envelope, PostError>

  /** The network, seen as an oracle from requests to replies */
  type Transport = Request -> Reply

  const UNKNOWN_ERROR: string := "Unknown error"

  /**
   * The text after each adapter's `"<Vendor> API error: "` prefix:
   * `error.response?.data?.error?.message ?? error.message` for an axios error,
   * `'Unknown error'` otherwise.
   */
  function ErrorDetail(e: PostError): string {
    match e
    case HttpError(apiMessage, message) => apiMessage.GetOr(message)
    case NonHttpError => UNKNOWN_ERROR
  }

  /** Which envelope path an adapter reads */
  datatype Shape = ChoicesShape | ContentShape | CandidatesShape

  /**
   * Reading the completion text out of an envelope. A missing field or an
   * empty list throws inside the `try` and is caught as a non-axios error;
   * Gemini's explicit `'No response generated'` error is one too.
   */
  function Unwrap(shape: Shape, e: Envelope): (r: Result<string, PostError>)
    ensures r.Failure? ==> r.error == NonHttpError
    ensures shape.ChoicesShape? ==>
              (r.Success? <==> e.choices.Some? && |e.choices.value| > 0)
              && (r.Success? ==> r.value == e.choices.value[0])
    ensures shape.ContentShape? ==>
              (r.Success? <==> e.content.Some? && |e.content.value| > 0)
              && (r.Success? ==> r.value == e.content.value[0])
    ensures shape.CandidatesShape? ==>
              (r.Success? <==> e.candidates.Some? && |e.candidates.value| > 0 && |e.candidates.value[0]| > 0)
              && (r.Success? ==> r.value == e.candidates.value[0][0])
  {
    match shape
    case ChoicesShape =>
      if e.choices.Some? && |e.choices.value| > 0 then Success(e.choices.value[0]) else Failure(NonHttpError)
    case ContentShape =>
      if e.content.Some? && |e.content.value| > 0 then Success(e.content.value[0]) else Failure(NonHttpError)
    case CandidatesShape =>
      if e.candidates.Some? && |e.candidates.value| > 0 && |e.candidates.value[0]| > 0
      then Success(e.candidates.value[0][0])
      else Failure(NonHttpError)
  }

  /** Everything inside one adapter's `try`: the post, then the unwrap */
  function Attempt(shape: Shape, reply: Reply): Result<string, PostError> {
    match reply
    case Success(envelope) => Unwrap(shape, envelope)
    case Failure(e) => Failure(e)
  }

  /** One `try`/`catch`: the text, or `Error(prefix + detail)` */
  function Settle(prefix: string, shape: Shape, reply: Reply): (r: Result<string, string>)
    ensures r.Success? <==> reply.Success? && Unwrap(shape, reply.value).Success?
    ensures r.Failure? ==> |r.error| >= |prefix| && r.error[..|prefix|] == prefix
  {
    match Attempt(shape, reply)
    case Success(text) => Success(text)
    case Failure(e) => Failure(prefix + ErrorDetail(e))
  }

  /**
   * The message priority of every adapter's `catch`: the vendor's message
   * when the response carries one (even an empty one), else the transport's
   * own message; anything that is not an axios error reads "Unknown error".
   */
  lemma ErrorMessagePriority(prefix: string, shape: Shape, apiMessage: string, message: string)
    ensures Settle(prefix, shape, Failure(HttpError(Some(apiMessage), message))) == Failure(prefix + apiMessage)
    ensures Settle(prefix, shape, Failure(HttpError(None, message))) == Failure(prefix + message)
    ensures Settle(prefix, shape, Failure(NonHttpError)) == Failure(prefix + "Unknown error")
  {
  }

  /** A response whose envelope lacks the text surfaces as "Unknown error" */
  lemma MalformedEnvelopeIsUnknownError(prefix: string, shape: Shape, e: Envelope)
    requires Unwrap(shape, e).Failure?
    ensures Settle(prefix, shape, Success(e)) == Failure(prefix + "Unknown error")
  {
  }

  /** A successful call returns exactly the text the envelope holds */
  lemma SettleReturnsEnvelopeText(prefix: string, shape: Shape, reply: Reply)
    requires Settle(prefix, shape, reply).Success?
    ensures reply.Success? && Settle(prefix, shape, reply).value == Unwrap(shape, reply.value).value
  {
  }
}
