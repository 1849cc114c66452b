/**
 * The vendor-neutral vocabulary (src/types.ts): chat messages, provider
 * configuration, completion options, catalog entries, and the argument
 * validator `isValidChatCompletionArgs` over a JSON value.
 */
module Types {
  import opened Wrappers

  datatype Role = System | User | Assistant

  datatype ChatMessage = ChatMessage(role: Role, content: string)

  // The seven `ProviderType` tags.
  const DEEPSEEK: string := "deepseek"
  const OPENAI: string := "openai"
  const AZURE_OPENAI: string := "azure-openai"
  const CLAUDE: string := "claude"
  const MISTRAL: string := "mistral"
  const CODESTRAL: string := "codestral"
  const GEMINI: string := "gemini"

  const PROVIDER_TYPES: set<string> := {DEEPSEEK, OPENAI, AZURE_OPENAI, CLAUDE, MISTRAL, CODESTRAL, GEMINI}

  /**
   * `ProviderConfig`. The tag is a plain string: configurations reach the
   * factory from untyped sources, so an unknown tag is representable.
   */
  datatype ProviderConfig = ProviderConfig(
    providerType: string,
    apiKey: string,
    baseUrl: Option<string>,
    models: seq<string>,
    defaultModel: string)

  /** `ChatCompletionOptions`: every field optional (`None` is an absent key). */
  datatype ChatCompletionOptions = ChatCompletionOptions(
    model: Option<string>,
    temperature: Option<real>,
    maxTokens: Option<real>,
    topP: Option<real>,
    frequencyPenalty: Option<real>,
    presencePenalty: Option<real>)

  /** Calling `chatCompletion(messages)` with no options argument */
  const NO_OPTIONS: ChatCompletionOptions := ChatCompletionOptions(None, None, None, None, None, None)

  /** `Required<ChatCompletionOptions>`: the merged options an adapter sends */
  datatype RequiredOptions = RequiredOptions(
    model: string,
    temperature: real,
    maxTokens: real,
    topP: real,
    frequencyPenalty: real,
    presencePenalty: real)

  datatype ModelInfo = ModelInfo(id: string, name: string, description: string)

  predicate DistinctIds(models: seq<ModelInfo>) {
    forall i, j :: 0 <= i < j < |models| ==> models[i].id != models[j].id
  }

  // ---------------------------------------------------------------------
  // isValidChatCompletionArgs
  // ---------------------------------------------------------------------

  /** A JSON value as the tool layer receives it (JSON has no NaN and no `undefined`). */
  datatype Json =
    | JNull
    | JBool(b: bool)
    | JNumber(n: real)
    | JString(s: string)
    | JArray(items: seq<Json>)
    | JObject(fields: map<string, Json>)

  /** Reading a property: `undefined` (`None`) unless the value is an object holding the key */
  function Property(v: Json, key: string): Option<Json> {
    if v.JObject? && key in v.fields then Some(v.fields[key]) else None
  }

  /** JavaScript truthiness of a value that may be `undefined` */
  predicate Truthy(v: Option<Json>) {
    match v
    case None => false
    case Some(JNull) => false
    case Some(JBool(b)) => b
    case Some(JNumber(n)) => n != 0.0
    case Some(JString(s)) => s != ""
    case Some(_) => true
  }

  /** `typeof v === 'object'`, which holds of `null` and of arrays as well */
  predicate IsObjectType(v: Json) {
    v.JNull? || v.JArray? || v.JObject?
  }

  predicate IsStringValue(v: Option<Json>) {
    v.Some? && v.value.JString?
  }

  /** `v !== undefined && (typeof v !== 'number' || v < lo || v > hi)` */
  predicate OutOfRange(v: Option<Json>, lo: real, hi: real) {
    v.Some? && (!v.value.JNumber? || v.value.n < lo || v.value.n > hi)
  }

  const VALID_ROLES: seq<string> := ["system", "user", "assistant"]

  /** The inner `isValidMessage` guard */
  predicate IsValidMessage(msg: Json) {
    && Truthy(Some(msg))
    && IsObjectType(msg)
    && (var role := Property(msg, "role"); role.Some? && role.value.JString? && role.value.s in VALID_ROLES)
    && IsStringValue(Property(msg, "content"))
  }

  /** The chain of guards of `isValidChatCompletionArgs`, in source order */
  predicate IsValidChatCompletionArgs(args: Json)
    ensures IsValidChatCompletionArgs(args) ==> args.JObject?
  {
    if !Truthy(Some(args)) || !IsObjectType(args) then false
    else
      var message := Property(args, "message");
      var messages := Property(args, "messages");
      if !Truthy(message) && !Truthy(messages) then false
      else if message.Some? && !message.value.JString? then false
      else if messages.Some? && !messages.value.JArray? then false
      else if messages.Some? && !(forall i :: 0 <= i < |messages.value.items| ==> IsValidMessage(messages.value.items[i])) then false
      else if Property(args, "model").Some? && !IsStringValue(Property(args, "model")) then false
      else if OutOfRange(Property(args, "temperature"), 0.0, 2.0) then false
      else if Property(args, "max_tokens").Some? && (!Property(args, "max_tokens").value.JNumber? || Property(args, "max_tokens").value.n < 1.0) then false
      else if OutOfRange(Property(args, "top_p"), 0.0, 1.0) then false
      else if OutOfRange(Property(args, "frequency_penalty"), -2.0, 2.0) then false
      else if OutOfRange(Property(args, "presence_penalty"), -2.0, 2.0) then false
      else true
  }

  // A typed reading of the same value, written independently of the guards:
  // what the type guard `args is ChatCompletionArgs` claims about `args`.

  /** `ChatCompletionArgs` */
  datatype ChatCompletionArgs = ChatCompletionArgs(
    message: Option<string>,
    messages: Option<seq<ChatMessage>>,
    model: Option<string>,
    temperature: Option<real>,
    maxTokens: Option<real>,
    topP: Option<real>,
    frequencyPenalty: Option<real>,
    presencePenalty: Option<real>)

  function RoleNamed(name: string): Option<Role> {
    if name == "system" then Some(System)
    else if name == "user" then Some(User)
    else if name == "assistant" then Some(Assistant)
    else None
  }

  function DecodeMessage(v: Json): Option<ChatMessage> {
    match v
    case JObject(fields) =>
      if && "role" in fields && fields["role"].JString? && RoleNamed(fields["role"].s).Some?
         && "content" in fields && fields["content"].JString?
      then Some(ChatMessage(RoleNamed(fields["role"].s).value, fields["content"].s))
      else None
    case _ => None
  }

  function DecodeMessages(items: seq<Json>): (r: Option<seq<ChatMessage>>)
    ensures r.Some? ==> |r.value| == |items|
    ensures r.Some? ==> forall i :: 0 <= i < |items| ==> DecodeMessage(items[i]) == Some(r.value[i])
  {
    if items == [] then Some([])
    else
      match (DecodeMessage(items[0]), DecodeMessages(items[1..]))
      case (Some(m), Some(rest)) => Some([m] + rest)
      case _ => None
  }

  /** An optional field of string type: the outer `None` is a type mismatch */
  function OptionalString(v: Option<Json>): Option<Option<string>> {
    match v
    case None => Some(None)
    case Some(JString(s)) => Some(Some(s))
    case Some(_) => None
  }

  function OptionalNumber(v: Option<Json>): Option<Option<real>> {
    match v
    case None => Some(None)
    case Some(JNumber(n)) => Some(Some(n))
    case Some(_) => None
  }

  function OptionalMessages(v: Option<Json>): Option<Option<seq<ChatMessage>>> {
    match v
    case None => Some(None)
    case Some(JArray(items)) =>
      (match DecodeMessages(items)
       case Some(ms) => Some(Some(ms))
       case None => None)
    case Some(_) => None
  }

  function DecodeArgs(args: Json): Option<ChatCompletionArgs> {
    if !(args.JObject? || args.JArray?) then None
    else
      var message := OptionalString(Property(args, "message"));
      var messages := OptionalMessages(Property(args, "messages"));
      var model := OptionalString(Property(args, "model"));
      var temperature := OptionalNumber(Property(args, "temperature"));
      var maxTokens := OptionalNumber(Property(args, "max_tokens"));
      var topP := OptionalNumber(Property(args, "top_p"));
      var frequencyPenalty := OptionalNumber(Property(args, "frequency_penalty"));
      var presencePenalty := OptionalNumber(Property(args, "presence_penalty"));
      if && message.Some? && messages.Some? && model.Some? && temperature.Some?
         && maxTokens.Some? && topP.Some? && frequencyPenalty.Some? && presencePenalty.Some?
      then Some(ChatCompletionArgs(message.value, messages.value, model.value, temperature.value,
                                   maxTokens.value, topP.value, frequencyPenalty.value, presencePenalty.value))
      else None
  }

  /** A non-empty `message` or any `messages` array (an empty array included) */
  predicate HasPrompt(a: ChatCompletionArgs) {
    (a.message.Some? && a.message.value != "") || a.messages.Some?
  }

  predicate Within(v: Option<real>, lo: real, hi: real) {
    v.None? || (lo <= v.value && v.value <= hi)
  }

  /** The documented ranges, inclusive; `max_tokens` only needs to be at least 1 */
  predicate WithinBounds(a: ChatCompletionArgs) {
    && Within(a.temperature, 0.0, 2.0)
    && (a.maxTokens.None? || a.maxTokens.value >= 1.0)
    && Within(a.topP, 0.0, 1.0)
    && Within(a.frequencyPenalty, -2.0, 2.0)
    && Within(a.presencePenalty, -2.0, 2.0)
  }

  lemma {:induction false} DecodeMessagesIffAllValid(items: seq<Json>)
    ensures DecodeMessages(items).Some? <==> forall i :: 0 <= i < |items| ==> IsValidMessage(items[i])
  {
    if items != [] {
      DecodeMessagesIffAllValid(items[1..]);
      assert forall i :: 1 <= i < |items| ==> items[i] == items[1..][i - 1];
      if DecodeMessage(items[0]).Some? {
        assert IsValidMessage(items[0]);
      } else {
        assert !IsValidMessage(items[0]);
      }
    }
  }

  /**
   * The validator accepts exactly the values that decode to a typed
   * `ChatCompletionArgs` carrying a prompt and respecting the bounds.
   */
  lemma ValidatorMatchesDecoding(args: Json)
    ensures IsValidChatCompletionArgs(args) <==>
              (DecodeArgs(args).Some? && HasPrompt(DecodeArgs(args).value) && WithinBounds(DecodeArgs(args).value))
  {
    OptionalMessagesIffValid(Property(args, "messages"));
  }

  /** An optional `messages` field decodes exactly when it is absent or an array of valid messages. */
  lemma OptionalMessagesIffValid(v: Option<Json>)
    ensures OptionalMessages(v).Some? <==>
              v.None? || (v.value.JArray? && forall i :: 0 <= i < |v.value.items| ==> IsValidMessage(v.value.items[i]))
    ensures OptionalMessages(v).Some? && v.Some? ==> OptionalMessages(v).value.Some?
  {
    if v.Some? && v.value.JArray? {
      DecodeMessagesIffAllValid(v.value.items);
    }
  }

  lemma EmptyMessagesArrayAccepted()
    ensures IsValidChatCompletionArgs(JObject(map["messages" := JArray([])]))
  {
  }

  lemma EmptyMessageAloneRejected()
    ensures !IsValidChatCompletionArgs(JObject(map["message" := JString("")]))
  {
  }

  lemma NonStringMessageRejected(args: Json)
    requires args.JObject? && "message" in args.fields && !args.fields["message"].JString?
    ensures !IsValidChatCompletionArgs(args)
  {
  }

  lemma FractionalMaxTokensAccepted()
    ensures IsValidChatCompletionArgs(JObject(map["message" := JString("hi"), "max_tokens" := JNumber(1.5)]))
    ensures !IsValidChatCompletionArgs(JObject(map["message" := JString("hi"), "max_tokens" := JNumber(0.5)]))
  {
  }

  lemma BoundsAreInclusive()
    ensures IsValidChatCompletionArgs(JObject(map[
      "message" := JString("hi"), "temperature" := JNumber(2.0), "top_p" := JNumber(0.0),
      "frequency_penalty" := JNumber(-2.0), "presence_penalty" := JNumber(2.0)]))
    ensures !IsValidChatCompletionArgs(JObject(map["message" := JString("hi"), "top_p" := JNumber(1.01)]))
  {
  }

  /**
   * Any element of `messages` whose role is a string other than "system",
   * "user" or "assistant" makes the whole call invalid, whatever the other
   * elements and fields are.
   */
  lemma BadRoleRejected(fields: map<string, Json>, k: int, r: string)
    requires "messages" in fields && fields["messages"].JArray?
    requires 0 <= k < |fields["messages"].items|
    requires fields["messages"].items[k].JObject?
    requires "role" in fields["messages"].items[k].fields
    requires fields["messages"].items[k].fields["role"] == JString(r)
    requires r !in VALID_ROLES
    ensures !IsValidChatCompletionArgs(JObject(fields))
  {
    assert !IsValidMessage(fields["messages"].items[k]);
  }
}
