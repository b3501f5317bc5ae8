/** The slice of the OpenAI chat API the flows use: messages, tool calls, completions, stream
    chunks, and the two foreign functions (`chat.completions.create` and the token helper's
    `build_messages`), which are parameters of the model. */
module ChatApi {
  import opened Common

  /** A chat message as the client takes it, e.g. `{"role": "user", "content": "…"}`. */
  type MessageParam = seq<(string, Value)>

  /** A list of messages as a value (how a thought step shows them). */
  function MessagesValue(ms: seq<MessageParam>): (v: Value)
    ensures v.List? && |v.items| == |ms|
  {
    List(seq(|ms|, i requires 0 <= i < |ms| => Dict(ms[i])))
  }

  /** A function call requested by the model; `arguments` is the already-parsed JSON object. */
  datatype FunctionCall = FunctionCall(name: string, arguments: seq<(string, Value)>)

  /** A tool call: `kind` is its `type` field. */
  datatype ToolCall = ToolCall(kind: string, call: FunctionCall)

  /** The `message` of one choice of a completion. */
  datatype CompletionMessage = CompletionMessage(content: Option<string>, toolCalls: Option<seq<ToolCall>>)

  datatype ChatCompletion = ChatCompletion(choices: seq<CompletionMessage>)

  /** One streamed chunk: each choice carries the `delta.content` of that chunk. */
  datatype ChunkChoice = ChunkChoice(content: Option<string>)
  datatype ChatChunk = ChatChunk(choices: seq<ChunkChoice>)

  /** The keyword arguments of one `chat.completions.create` call (`None` where not given). */
  datatype CompletionRequest = CompletionRequest(
    model: string,
    messages: seq<MessageParam>,
    temperature: PyFloat,
    maxTokens: int,
    n: int,
    stream: bool,
    seed: Option<int>,
    tools: Option<Value>,
    toolChoice: Option<string>)

  type ChatClient = CompletionRequest -> Result<ChatCompletion>
  type ChatStreamClient = CompletionRequest -> Result<seq<ChatChunk>>

  /** The arguments of one `build_messages` call. */
  datatype BuildMessagesRequest = BuildMessagesRequest(
    model: string,
    systemPrompt: string,
    fewShots: seq<MessageParam>,
    newUserContent: string,
    pastMessages: seq<MessageParam>,
    maxTokens: int,
    tools: Option<Value>,
    toolChoice: Option<string>)

  /** `build_messages`, whose token-budget truncation is not modelled. */
  type MessageBuilder = BuildMessagesRequest -> seq<MessageParam>

  /** `str(content)`: a missing content prints as `None`. */
  function ContentText(content: Option<string>): string
  {
    if content.Some? then content.value else "None"
  }

  /** The model argument: the deployment name when it is set and non-empty, else the model name. */
  function ChatModelArg(chatModel: string, chatDeployment: Option<string>): (model: string)
    ensures chatDeployment.Some? && chatDeployment.value != "" ==> model == chatDeployment.value
    ensures chatDeployment.None? || chatDeployment.value == "" ==> model == chatModel
  {
    OrElse(chatDeployment, chatModel)
  }

  /** The `props` every prompt thought carries: the deployment only when it is truthy. */
  function ModelProps(chatModel: string, chatDeployment: Option<string>): (props: seq<(string, Value)>)
    ensures HasKey(props, "model") && Lookup(props, "model") == Some(Str(chatModel))
    ensures HasKey(props, "deployment") <==> chatDeployment.Some? && chatDeployment.value != ""
    ensures HasKey(props, "deployment") ==> Lookup(props, "deployment") == Some(Str(chatDeployment.value))
  {
    if chatDeployment.Some? && chatDeployment.value != "" then
      var props := [("model", Str(chatModel)), ("deployment", Str(chatDeployment.value))];
      assert props[1].0 == "deployment" != "model";
      assert props[..1][0].0 == "model";
      assert Lookup(props, "model") == Lookup(props[..1], "model");
      props
    else
      var props := [("model", Str(chatModel))];
      assert props[0].0 == "model";
      props
  }
}
