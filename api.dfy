/** The request and response records of the chat API (src/backend/fastapi_app/api_models.py)
    and the derivation of the per-request parameters from the conversation and the overrides
    (`RAGChatBase.get_params`). */
module Api {
  import opened Common
  import opened ChatApi

  datatype Role = User | Assistant | System

  /** The wire value of a role. */
  function RoleName(r: Role): (s: string)
    ensures s == "user" <==> r == User
    ensures s == "assistant" <==> r == Assistant
    ensures s == "system" <==> r == System
  {
    match r
    case User => "user"
    case Assistant => "assistant"
    case System => "system"
  }

  /** Reading a role from its wire value, as request validation does; any other text is refused. */
  function RoleOfName(s: string): Option<Role>
  {
    if s == "user" then Some(User)
    else if s == "assistant" then Some(Assistant)
    else if s == "system" then Some(System)
    else None
  }

  /** The wire values and the roles are in one-to-one correspondence. */
  lemma RoleNameRoundTrip(r: Role, s: string)
    ensures RoleOfName(RoleName(r)) == Some(r)
    ensures RoleOfName(s).Some? ==> RoleName(RoleOfName(s).value) == s
  {
  }

  datatype Message = Message(content: string, role: Role := User)

  datatype RetrievalMode = Text | Vectors | Hybrid

  /** The wire value of a retrieval mode. */
  function ModeName(m: RetrievalMode): (s: string)
    ensures s == "text" <==> m == Text
    ensures s == "vectors" <==> m == Vectors
    ensures s == "hybrid" <==> m == Hybrid
  {
    match m
    case Text => "text"
    case Vectors => "vectors"
    case Hybrid => "hybrid"
  }

  /** Reading a retrieval mode from its wire value; any other text is refused. */
  function ModeOfName(s: string): Option<RetrievalMode>
  {
    if s == "text" then Some(Text)
    else if s == "vectors" then Some(Vectors)
    else if s == "hybrid" then Some(Hybrid)
    else None
  }

  /** The wire values and the retrieval modes are in one-to-one correspondence. */
  lemma ModeNameRoundTrip(m: RetrievalMode, s: string)
    ensures ModeOfName(ModeName(m)) == Some(m)
    ensures ModeOfName(s).Some? ==> ModeName(ModeOfName(s).value) == s
  {
  }

  /** The overrides a request may carry, with their defaults. `seed` is read by `get_params`
      and is therefore part of the record here. */
  datatype ChatRequestOverrides = ChatRequestOverrides(
    top: int := 3,
    temperature: PyFloat := "0.3",
    retrievalMode: RetrievalMode := Hybrid,
    useAdvancedFlow: bool := true,
    promptTemplate: Option<string> := None,
    seed: Option<int> := None)

  /** What a thought step shows: a plain value, or rows as their `to_dict()` dictionaries
      (whose key order is not modelled). */
  datatype Description = Plain(value: Value) | Rows(rows: seq<map<string, Value>>)

  /** One step of the explanation shown next to an answer. */
  datatype ThoughtStep = ThoughtStep(title: string, description: Description, props: seq<(string, Value)> := [])

  /** The context of an answer: the rows it was grounded on, keyed by id, and its thought steps. */
  datatype RAGContext<Id> = RAGContext(
    dataPoints: map<Id, map<string, Value>>,
    thoughts: seq<ThoughtStep>,
    followupQuestions: Option<seq<string>> := None)

  datatype RetrievalResponse<Id> = RetrievalResponse(message: Message, context: RAGContext<Id>, sessionState: Value := Null)

  /** One element of a streamed answer; every field is optional. */
  datatype RetrievalResponseDelta<Id> = RetrievalResponseDelta(
    delta: Option<Message> := None,
    context: Option<RAGContext<Id>> := None,
    sessionState: Value := Null)

  /** The parameters one request is answered with. */
  datatype ChatParams = ChatParams(
    top: int,
    temperature: PyFloat,
    seed: Option<int>,
    retrievalMode: RetrievalMode,
    useAdvancedFlow: bool,
    promptTemplate: string,
    responseTokenLimit: int,
    enableTextSearch: bool,
    enableVectorSearch: bool,
    originalUserQuery: string,
    pastMessages: seq<MessageParam>)

  /** The answer's token budget. */
  const ResponseTokenLimit := 1024

  /** `mode in ["text", "hybrid", None]`: the modes that run the full-text branch. */
  predicate EnablesText(mode: Value)
  {
    mode in [Str("text"), Str("hybrid"), Null]
  }

  /** `mode in ["vectors", "hybrid", None]`: the modes that run the vector branch. */
  predicate EnablesVector(mode: Value)
  {
    mode in [Str("vectors"), Str("hybrid"), Null]
  }

  const NonStringContentMessage := "The most recent message content must be a string."

  /** `get_params`: the last message is the question, the earlier ones the history. An empty
      conversation fails on `messages[-1]`, a last message without content on `["content"]`, and
      a non-string content with `ValueError`. */
  function GetParams(messages: seq<MessageParam>, overrides: ChatRequestOverrides,
                     answerPromptTemplate: string): (r: Result<ChatParams>)
    ensures messages == [] ==> r == Err(IndexError)
    ensures messages != [] && !HasKey(messages[|messages| - 1], "content") ==> r == Err(KeyError("content"))
    ensures r.Ok? <==> messages != [] && Lookup(messages[|messages| - 1], "content").Some?
                                       && Lookup(messages[|messages| - 1], "content").value.Str?
    ensures messages != [] && HasKey(messages[|messages| - 1], "content") && r.Err? ==>
      r == Err(ValueError(NonStringContentMessage))
  {
    if messages == [] then Err(IndexError)
    else
      match Lookup(messages[|messages| - 1], "content")
      case None => Err(KeyError("content"))
      case Some(Str(query)) =>
        var mode := Str(ModeName(overrides.retrievalMode));
        Ok(ChatParams(
          top := overrides.top,
          temperature := overrides.temperature,
          seed := overrides.seed,
          retrievalMode := overrides.retrievalMode,
          useAdvancedFlow := overrides.useAdvancedFlow,
          promptTemplate := OrElse(overrides.promptTemplate, answerPromptTemplate),
          responseTokenLimit := ResponseTokenLimit,
          enableTextSearch := EnablesText(mode),
          enableVectorSearch := EnablesVector(mode),
          originalUserQuery := query,
          pastMessages := messages[..|messages| - 1]))
      case Some(_) => Err(ValueError(NonStringContentMessage))
  }

  // ---- What get_params promises ----

  /** The question and the history together are the conversation: the history is every earlier
      message in order, and the question is the last message's content. */
  lemma {:induction false} GetParamsSplitsConversation(messages: seq<MessageParam>, overrides: ChatRequestOverrides,
                                                       answerPromptTemplate: string)
    requires GetParams(messages, overrides, answerPromptTemplate).Ok?
    ensures var p := GetParams(messages, overrides, answerPromptTemplate).value;
      |p.pastMessages| + 1 == |messages| &&
      p.pastMessages + [messages[|messages| - 1]] == messages &&
      Lookup(messages[|messages| - 1], "content") == Some(Str(p.originalUserQuery))
  {
  }

  /** Every mode runs at least one branch; hybrid runs both, text only the full-text branch and
      vectors only the vector branch. */
  lemma {:induction false} ModeFlags(m: RetrievalMode)
    ensures EnablesText(Str(ModeName(m))) <==> m != Vectors
    ensures EnablesVector(Str(ModeName(m))) <==> m != Text
    ensures EnablesText(Str(ModeName(m))) || EnablesVector(Str(ModeName(m)))
  {
    match m
    case Text =>
      assert Str("text") != Str("vectors") && Str("text") != Str("hybrid");
    case Vectors =>
      assert Str("vectors") != Str("text") && Str("vectors") != Str("hybrid");
    case Hybrid =>
  }

  /** A missing mode runs both branches; a value that is none of the three runs neither. */
  lemma {:induction false} ModeFlagsOfRawValues(mode: Value)
    ensures mode == Null ==> EnablesText(mode) && EnablesVector(mode)
    ensures mode !in [Str("text"), Str("vectors"), Str("hybrid"), Null] ==> !EnablesText(mode) && !EnablesVector(mode)
  {
  }

  /** The flags follow the mode, the token limit is always 1024, the prompt is the override
      unless that is missing or empty, and the remaining overrides are copied unchanged. */
  lemma {:induction false} GetParamsFromOverrides(messages: seq<MessageParam>, overrides: ChatRequestOverrides,
                                                  answerPromptTemplate: string)
    requires GetParams(messages, overrides, answerPromptTemplate).Ok?
    ensures var p := GetParams(messages, overrides, answerPromptTemplate).value;
      (p.enableTextSearch <==> overrides.retrievalMode != Vectors) &&
      (p.enableVectorSearch <==> overrides.retrievalMode != Text) &&
      p.responseTokenLimit == 1024 &&
      (p.promptTemplate == answerPromptTemplate <== overrides.promptTemplate.None? || overrides.promptTemplate.value == "") &&
      (overrides.promptTemplate.Some? && overrides.promptTemplate.value != "" ==> p.promptTemplate == overrides.promptTemplate.value) &&
      p.top == overrides.top && p.temperature == overrides.temperature && p.seed == overrides.seed &&
      p.retrievalMode == overrides.retrievalMode && p.useAdvancedFlow == overrides.useAdvancedFlow
  {
    ModeFlags(overrides.retrievalMode);
  }

  /** The defaults of a request without overrides: top 3, temperature 0.3, hybrid retrieval,
      the advanced flow, no prompt override and no seed. */
  lemma DefaultOverrides()
    ensures var o := ChatRequestOverrides();
      o.top == 3 && o.temperature == "0.3" && o.retrievalMode == Hybrid && o.useAdvancedFlow &&
      o.promptTemplate == None && o.seed == None
    ensures Message("hi").role == User
    ensures ThoughtStep("t", Plain(Null)).props == []
    ensures var d: RetrievalResponseDelta<int> := RetrievalResponseDelta();
      d.delta.None? && d.context.None? && d.sessionState == Null
  {
  }
}
