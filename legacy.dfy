/** The older answer flows over the product catalog: the `run` methods of the first version of
    the app (src/fastapi_app), which take the overrides as a plain dictionary and return a plain
    dictionary, and `RAGFlow.answer` of the product app (src/backend/rag_app), which always
    rewrites the question, searches for three rows and answers at a fixed temperature. */
module Legacy {
  import opened Common
  import opened Items
  import opened ChatApi
  import opened Fusion
  import opened Searcher
  import opened Rewriter
  import opened Api
  import opened Flows

  /** A message of the first version's `ChatRequest`: its content is a string and its role any
      string (`"user"` by default). */
  datatype ChatMessage = ChatMessage(content: string, role: string := "user")

  /** `message.model_dump()`, the dictionary `run` receives for each message. */
  function MessageDict(m: ChatMessage): MessageParam
  {
    [("content", Str(m.content)), ("role", Str(m.role))]
  }

  function MessageDicts(ms: seq<ChatMessage>): (r: seq<MessageParam>)
    ensures |r| == |ms|
    ensures forall i :: 0 <= i < |ms| ==> r[i] == MessageDict(ms[i])
    ensures forall i :: 0 <= i < |ms| ==>
      Keys(r[i]) == ["content", "role"] &&
      Lookup(r[i], "content") == Some(Str(ms[i].content)) && Lookup(r[i], "role") == Some(Str(ms[i].role))
  {
    MessageDictsReadBack(ms);

    seq(|ms|, i requires 0 <= i < |ms| => MessageDict(ms[i]))
  }

  /** Each message dictionary holds the message's content and role under their keys. */
  lemma MessageDictsReadBack(ms: seq<ChatMessage>)
    ensures forall i :: 0 <= i < |ms| ==>
      Keys(MessageDict(ms[i])) == ["content", "role"] &&
      Lookup(MessageDict(ms[i]), "content") == Some(Str(ms[i].content)) &&
      Lookup(MessageDict(ms[i]), "role") == Some(Str(ms[i].role))
  {
    forall i | 0 <= i < |ms|
      ensures Lookup(MessageDict(ms[i]), "content") == Some(Str(ms[i].content))
    {
      var d := MessageDict(ms[i]);
      assert d[1].0 == "role" != "content";
      assert d[..1] == [("content", Str(ms[i].content))];
    }
  }

  /** The keys `run` reads from the overrides dictionary. `retrievalMode` is `Null` when the key
      is missing (or holds `None`); the other three are `None` when the key is missing. */
  datatype LegacyOverrides = LegacyOverrides(
    retrievalMode: Value := Null,
    top: Option<int> := None,
    temperature: Option<PyFloat> := None,
    promptTemplate: Option<string> := None)

  /** `overrides.get("top", 3)`. */
  function TopOf(o: LegacyOverrides): int
  {
    if o.top.Some? then o.top.value else 3
  }

  /** `overrides.get("temperature", 0.3)`. */
  function TemperatureOf(o: LegacyOverrides): PyFloat
  {
    if o.temperature.Some? then o.temperature.value else "0.3"
  }

  /** What `run` returns: the first choice's message as the model sent it, and the context. */
  datatype RunResponse = RunResponse(message: CompletionMessage, context: RAGContext<int>)

  /** `messages[-1]["content"]` and `messages[:-1]`; an empty conversation fails on `messages[-1]`. */
  function Question(messages: seq<ChatMessage>): (r: Result<(string, seq<MessageParam>)>)
    ensures r.Err? <==> messages == []
    ensures r.Err? ==> r.error == IndexError
    ensures r.Ok? ==> r.value.0 == messages[|messages| - 1].content &&
                      r.value.1 == MessageDicts(messages[..|messages| - 1])
  {
    if messages == [] then Err(IndexError)
    else Ok((messages[|messages| - 1].content, MessageDicts(messages[..|messages| - 1])))
  }

  // ---- The pieces shared by the product flows ----

  function ProductId(x: ProductItem): int { x.id }

  function ProductRowDict(x: ProductItem): map<string, Value> { ProductToDict(x, false) }

  function ProductSources(results: seq<ProductItem>): seq<string>
  {
    SourcesContent(results, ProductIdText, ProductToStrForRag)
  }

  function ProductDataPoints(results: seq<ProductItem>): map<int, map<string, Value>>
  {
    DataPoints(results, ProductId, ProductRowDict)
  }

  /** `[result.to_dict() for result in results]`. */
  function ProductRows(results: seq<ProductItem>): (r: seq<map<string, Value>>)
    ensures |r| == |results|
  {
    seq(|results|, i requires 0 <= i < |results| => ProductRowDict(results[i]))
  }

  /** `[str(message) for message in messages]`: each message printed as a dictionary. */
  function MessageStrings(ms: seq<MessageParam>): (v: Value)
    ensures v.List? && |v.items| == |ms|
    ensures forall i :: 0 <= i < |ms| ==> v.items[i] == Str(PyStr(Dict(ms[i])))
  {
    List(seq(|ms|, i requires 0 <= i < |ms| => Str(PyStr(Dict(ms[i])))))
  }

  /** The props of a search thought. */
  function RunSearchProps(top: int, vectorSearch: bool, textSearch: bool): seq<(string, Value)>
  {
    [("top", Int(top)), ("vector_search", Bool(vectorSearch)), ("text_search", Bool(textSearch))]
  }

  /** A search thought shows the `top` it searched with. */
  lemma RunSearchPropsTop(top: int, vectorSearch: bool, textSearch: bool)
    ensures Lookup(RunSearchProps(top, vectorSearch, textSearch), "top") == Some(Int(top))
  {
    var props := RunSearchProps(top, vectorSearch, textSearch);
    assert props[2].0 == "text_search" != "top";
    assert Lookup(props, "top") == Lookup(props[..2], "top");
    assert props[..2] == [("top", Int(top)), ("vector_search", Bool(vectorSearch))];
    assert Lookup(props[..2], "top") == Lookup([("top", Int(top))], "top");
  }

  /** The `build_messages` call of an answer: no few-shots and no tools. */
  function RunAnswerMessagesRequest(chatModel: string, chatTokenLimit: int, systemPrompt: string, query: string,
                                    pastMessages: seq<MessageParam>, results: seq<ProductItem>): BuildMessagesRequest
  {
    BuildMessagesRequest(chatModel, systemPrompt, [], UserContent(query, ProductSources(results)), pastMessages,
                         chatTokenLimit - ResponseTokenLimit, None, None)
  }

  /** The answer call: 1024 tokens, one choice, no stream, no seed and no tools. */
  function RunAnswerRequest(model: string, messages: seq<MessageParam>, temperature: PyFloat): CompletionRequest
  {
    CompletionRequest(model, messages, temperature, ResponseTokenLimit, 1, false, None, None, None)
  }

  /** `["choices"][0]`: a completion without choices fails. */
  function FirstChoice(completion: Result<ChatCompletion>): (r: Result<CompletionMessage>)
    ensures completion.Ok? && |completion.value.choices| > 0 <==> r.Ok?
    ensures r.Ok? ==> r.value == completion.value.choices[0]
    ensures completion.Ok? && |completion.value.choices| == 0 ==> r == Err(IndexError)
  {
    match completion
    case Err(e) => Err(e)
    case Ok(c) => if |c.choices| == 0 then Err(IndexError) else Ok(c.choices[0])
  }

  /** The answer thought, the last of every `run`. */
  function AnswerThought(chatModel: string, chatDeployment: Option<string>, messages: seq<MessageParam>): ThoughtStep
  {
    ThoughtStep(AnswerThoughtTitle, Plain(MessageStrings(messages)), ModelProps(chatModel, chatDeployment))
  }

  /** The first version's simple flow. */
  class LegacySimpleRAGChat {
    const searcher: LegacyPostgresSearcher
    const chat: ChatClient
    const buildMessages: MessageBuilder
    const chatModel: string
    const chatDeployment: Option<string>
    const chatTokenLimit: int
    const answerPromptTemplate: string

    constructor (searcher: LegacyPostgresSearcher, chat: ChatClient, buildMessages: MessageBuilder,
                 chatModel: string, chatDeployment: Option<string>, chatTokenLimit: int,
                 answerPromptTemplate: string)
      ensures this.searcher == searcher && this.chat == chat && this.buildMessages == buildMessages
      ensures this.chatModel == chatModel && this.chatDeployment == chatDeployment
      ensures this.chatTokenLimit == chatTokenLimit && this.answerPromptTemplate == answerPromptTemplate
    {
      this.searcher := searcher;
      this.chat := chat;
      this.buildMessages := buildMessages;
      this.chatModel := chatModel;
      this.chatDeployment := chatDeployment;
      this.chatTokenLimit := chatTokenLimit;
      this.answerPromptTemplate := answerPromptTemplate;
    }

    /** The messages of the answer call. */
    function AnswerMessages(o: LegacyOverrides, query: string, past: seq<MessageParam>,
                            results: seq<ProductItem>): seq<MessageParam>
    {
      buildMessages(RunAnswerMessagesRequest(chatModel, chatTokenLimit, OrElse(o.promptTemplate, answerPromptTemplate),
                                             query, past, results))
    }

    /** `run`: search with the question, answer from the rows, and record three thoughts. */
    function Run(messages: seq<ChatMessage>, o: LegacyOverrides): Result<RunResponse>
      requires DbValid(searcher.db)
    {
      var textSearch := EnablesText(o.retrievalMode);
      var vectorSearch := EnablesVector(o.retrievalMode);
      match Question(messages)
      case Err(e) => Err(e)
      case Ok((query, past)) =>
        match searcher.Result(Str(query), TopOf(o), vectorSearch, textSearch, None)
        case Err(e) => Err(e)
        case Ok(results) =>
          var answerMessages := AnswerMessages(o, query, past, results);
          var answer := chat(RunAnswerRequest(ChatModelArg(chatModel, chatDeployment), answerMessages, TemperatureOf(o)));
          match FirstChoice(answer)
          case Err(e) => Err(e)
          case Ok(message) =>
            Ok(RunResponse(message, RAGContext(ProductDataPoints(results), [
              ThoughtStep("Search query for database", Plain(if textSearch then Str(query) else Null),
                          RunSearchProps(TopOf(o), vectorSearch, textSearch)),
              ThoughtStep("Search results", Rows(ProductRows(results))),
              AnswerThought(chatModel, chatDeployment, answerMessages)])))
    }

    /** The search runs with the question, `top` (3 unless overridden) and the flags of the
      retrieval mode (a missing mode enables both); the context keys every row by its id and holds
      exactly three thoughts in order, the first showing the question only when text search is
      on; the answer call sends the question with every row as a source under the overridden
      prompt or the answer prompt, asks for 1024 tokens at the overridden temperature or 0.3, and
      its first choice is the message returned. */
    lemma {:induction false} RunGrounded(messages: seq<ChatMessage>, o: LegacyOverrides)
      requires DbValid(searcher.db)
      requires Run(messages, o).Ok?
      ensures messages != []
      ensures var query := messages[|messages| - 1].content;
        var past := MessageDicts(messages[..|messages| - 1]);
        var results := searcher.Result(Str(query), TopOf(o), EnablesVector(o.retrievalMode), EnablesText(o.retrievalMode), None);
        results.Ok? &&
        var req := RunAnswerRequest(ChatModelArg(chatModel, chatDeployment), AnswerMessages(o, query, past, results.value),
                                    TemperatureOf(o));
        req.model == ChatModelArg(chatModel, chatDeployment) && req.temperature == TemperatureOf(o) &&
        req.maxTokens == 1024 && req.n == 1 && !req.stream && req.seed.None? && req.tools.None? &&
        req.messages == buildMessages(BuildMessagesRequest(chatModel, OrElse(o.promptTemplate, answerPromptTemplate), [],
                                                           UserContent(query, ProductSources(results.value)), past,
                                                           chatTokenLimit - 1024, None, None)) &&
        chat(req).Ok? && |chat(req).value.choices| > 0 && Run(messages, o).value.message == chat(req).value.choices[0]
      ensures var query := messages[|messages| - 1].content;
        var results := searcher.Result(Str(query), TopOf(o), EnablesVector(o.retrievalMode), EnablesText(o.retrievalMode), None);
        var r := Run(messages, o).value;
        var ts := r.context.thoughts;
        results.Ok? &&
        (forall i :: 0 <= i < |results.value| ==> results.value[i].id in r.context.dataPoints) &&
        |ts| == 3 &&
        ts[0].title == "Search query for database" && ts[1].title == "Search results" &&
        ts[2].title == AnswerThoughtTitle &&
        ts[0].description == Plain(if EnablesText(o.retrievalMode) then Str(query) else Null) &&
        ts[1].description == Rows(ProductRows(results.value)) &&
        Lookup(ts[0].props, "top") == Some(Int(TopOf(o))) &&
        (o.top.None? ==> TopOf(o) == 3) && (o.temperature.None? ==> TemperatureOf(o) == "0.3") &&
        (o.retrievalMode == Null ==> EnablesText(o.retrievalMode) && EnablesVector(o.retrievalMode))
    {
      var textSearch := EnablesText(o.retrievalMode);
      var vectorSearch := EnablesVector(o.retrievalMode);
      var (query, past) := Question(messages).value;
      var results := searcher.Result(Str(query), TopOf(o), vectorSearch, textSearch, None).value;
      var answerMessages := AnswerMessages(o, query, past, results);
      var answer := chat(RunAnswerRequest(ChatModelArg(chatModel, chatDeployment), answerMessages, TemperatureOf(o)));
      var thoughts := [
        ThoughtStep("Search query for database", Plain(if textSearch then Str(query) else Null),
                    RunSearchProps(TopOf(o), vectorSearch, textSearch)),
        ThoughtStep("Search results", Rows(ProductRows(results))),
        AnswerThought(chatModel, chatDeployment, answerMessages)];
      assert Run(messages, o).value.context == RAGContext(ProductDataPoints(results), thoughts);
      RunSearchPropsTop(TopOf(o), vectorSearch, textSearch);
      ModeFlagsOfRawValues(o.retrievalMode);
    }
  }

  /** The first version's advanced flow: rewrite, search, answer, with four thoughts. */
  class LegacyAdvancedRAGChat {
    const searcher: LegacyPostgresSearcher
    const chat: ChatClient
    const buildMessages: MessageBuilder
    const chatModel: string
    const chatDeployment: Option<string>
    const chatTokenLimit: int
    const queryPromptTemplate: string
    const answerPromptTemplate: string

    constructor (searcher: LegacyPostgresSearcher, chat: ChatClient, buildMessages: MessageBuilder,
                 chatModel: string, chatDeployment: Option<string>, chatTokenLimit: int,
                 queryPromptTemplate: string, answerPromptTemplate: string)
      ensures this.searcher == searcher && this.chat == chat && this.buildMessages == buildMessages
      ensures this.chatModel == chatModel && this.chatDeployment == chatDeployment
      ensures this.chatTokenLimit == chatTokenLimit && this.queryPromptTemplate == queryPromptTemplate
      ensures this.answerPromptTemplate == answerPromptTemplate
    {
      this.searcher := searcher;
      this.chat := chat;
      this.buildMessages := buildMessages;
      this.chatModel := chatModel;
      this.chatDeployment := chatDeployment;
      this.chatTokenLimit := chatTokenLimit;
      this.queryPromptTemplate := queryPromptTemplate;
      this.answerPromptTemplate := answerPromptTemplate;
    }

    /** The rewrite's messages: the query prompt and the question, without few-shots or tools. */
    function QueryMessages(query: string, past: seq<MessageParam>): seq<MessageParam>
    {
      buildMessages(BuildMessagesRequest(chatModel, queryPromptTemplate, [], query, past,
                                         chatTokenLimit - QueryResponseTokenLimit, None, None))
    }

    /** The rewrite call: temperature 0, 500 tokens, one choice, the product search tool with `auto`. */
    function QueryRequest(queryMessages: seq<MessageParam>): CompletionRequest
    {
      CompletionRequest(ChatModelArg(chatModel, chatDeployment), queryMessages, "0.0", QueryResponseTokenLimit, 1,
                        false, None, Some(ProductSearchTools), Some("auto"))
    }

    /** The messages of the answer call. */
    function AnswerMessages(o: LegacyOverrides, query: string, past: seq<MessageParam>,
                            results: seq<ProductItem>): seq<MessageParam>
    {
      buildMessages(RunAnswerMessagesRequest(chatModel, chatTokenLimit, OrElse(o.promptTemplate, answerPromptTemplate),
                                             query, past, results))
    }

    /** The four thoughts; the search thought shows the filter records as the search left them. */
    function RunThoughts(o: LegacyOverrides, queryMessages: seq<MessageParam>, queryText: Value,
                         filtersAfterSearch: seq<Filter>, results: seq<ProductItem>,
                         answerMessages: seq<MessageParam>): seq<ThoughtStep>
    {
      [ThoughtStep("Prompt to generate search arguments", Plain(MessageStrings(queryMessages)),
                   ModelProps(chatModel, chatDeployment)),
       ThoughtStep("Search using generated search arguments", Plain(queryText),
                   RunSearchProps(TopOf(o), EnablesVector(o.retrievalMode), EnablesText(o.retrievalMode)) +
                   [("filters", FiltersValue(filtersAfterSearch))]),
       ThoughtStep("Search results", Rows(ProductRows(results))),
       AnswerThought(chatModel, chatDeployment, answerMessages)]
    }

    /** The rewrite: its messages, and the query and filters extracted from the model's answer. */
    function Rewrite(query: string, past: seq<MessageParam>): Result<(seq<MessageParam>, Value, seq<Filter>)>
    {
      var queryMessages := QueryMessages(query, past);
      match chat(QueryRequest(queryMessages))
      case Err(e) => Err(e)
      case Ok(completion) =>
        match Extract(query, completion, ProductFilterSchema)
        case Err(e) => Err(e)
        case Ok((queryText, filters)) => Ok((queryMessages, queryText, filters))
    }

    /** What `run` returns. */
    function Outcome(messages: seq<ChatMessage>, o: LegacyOverrides): Result<RunResponse>
      requires DbValid(searcher.db)
    {
      match Question(messages)
      case Err(e) => Err(e)
      case Ok((query, past)) =>
        match Rewrite(query, past)
        case Err(e) => Err(e)
        case Ok((queryMessages, queryText, filters)) =>
          match searcher.Result(queryText, TopOf(o), EnablesVector(o.retrievalMode), EnablesText(o.retrievalMode),
                                Some(filters))
          case Err(e) => Err(e)
          case Ok(results) =>
            var answerMessages := AnswerMessages(o, query, past, results);
            match FirstChoice(chat(RunAnswerRequest(ChatModelArg(chatModel, chatDeployment), answerMessages,
                                                    TemperatureOf(o))))
            case Err(e) => Err(e)
            case Ok(message) =>
              Ok(RunResponse(message, RAGContext(ProductDataPoints(results),
                RunThoughts(o, queryMessages, queryText, QuoteAll(filters), results, answerMessages))))
    }

    /** `run`: the extracted filter list is handed to the searcher, which quotes its string
      values in place, and the same list is then recorded in the search thought. */
    method Run(messages: seq<ChatMessage>, o: LegacyOverrides) returns (r: Result<RunResponse>)
      requires DbValid(searcher.db)
      ensures r == Outcome(messages, o)
    {
      var question := Question(messages);
      if question.Err? {
        return Err(question.error);
      }
      var (query, past) := question.value;
      var rewrite := Rewrite(query, past);
      if rewrite.Err? {
        return Err(rewrite.error);
      }
      var (queryMessages, queryText, extracted) := rewrite.value;
      var filters := new Filter[|extracted|](i requires 0 <= i < |extracted| => extracted[i]);
      assert filters[..] == extracted;
      var textSearch := EnablesText(o.retrievalMode);
      var vectorSearch := EnablesVector(o.retrievalMode);
      var results := searcher.SearchAndEmbed(queryText, TopOf(o), vectorSearch, textSearch, Some(filters));
      if results.Err? {
        return Err(results.error);
      }
      assert searcher.EmbedStep(queryText, vectorSearch).Ok?;
      var answerMessages := AnswerMessages(o, query, past, results.value);
      var answer := FirstChoice(chat(RunAnswerRequest(ChatModelArg(chatModel, chatDeployment), answerMessages,
                                                      TemperatureOf(o))));
      if answer.Err? {
        return Err(answer.error);
      }
      r := Ok(RunResponse(answer.value, RAGContext(ProductDataPoints(results.value),
            RunThoughts(o, queryMessages, queryText, filters[..], results.value, answerMessages))));
    }

    /** The rewrite sends the deployment or the model name and offers exactly the tool whose
      arguments the extractor reads, at temperature 0 with 500 tokens and one choice. */
    lemma {:induction false} RewriteOffersTheExtractedTool(queryMessages: seq<MessageParam>)
      ensures var req := QueryRequest(queryMessages);
        req.model == ChatModelArg(chatModel, chatDeployment) &&
        req.tools.Some? && PropertyNames(req.tools.value) == Some(["search_query"] + Keys(ProductFilterSchema)) &&
        req.temperature == "0.0" && req.maxTokens == 500 && req.n == 1 && req.toolChoice == Some("auto") &&
        req.seed.None?
    {
      ProductToolMatchesExtractor();
    }

    /** The four thoughts in order; the search thought shows the query and the filters. */
    lemma {:induction false} RunThoughtsInOrder(o: LegacyOverrides, queryMessages: seq<MessageParam>, queryText: Value,
                                                 filtersAfterSearch: seq<Filter>, results: seq<ProductItem>,
                                                 answerMessages: seq<MessageParam>)
      ensures var ts := RunThoughts(o, queryMessages, queryText, filtersAfterSearch, results, answerMessages);
        |ts| == 4 &&
        ts[0].title == "Prompt to generate search arguments" &&
        ts[1].title == "Search using generated search arguments" &&
        ts[2].title == "Search results" && ts[3].title == AnswerThoughtTitle &&
        ts[1].description == Plain(queryText) &&
        Lookup(ts[1].props, "filters") == Some(FiltersValue(filtersAfterSearch))
    {
      var props := RunThoughts(o, queryMessages, queryText, filtersAfterSearch, results, answerMessages)[1].props;
      assert props[3] == ("filters", FiltersValue(filtersAfterSearch));
      assert props == props[..3] + [props[3]];
    }

    /** The search runs with the rewritten query and the extracted filters, and the context holds
      four thoughts in order, the search thought showing the query and the quoted filters; the
      answer call sends the original question with every row as a source under the overridden
      prompt or the answer prompt, asks for 1024 tokens at the overridden temperature or 0.3, and
      its first choice is the message returned. */
    lemma {:induction false} RunUsesRewrite(messages: seq<ChatMessage>, o: LegacyOverrides)
      requires DbValid(searcher.db)
      requires Outcome(messages, o).Ok?
      ensures messages != []
      ensures var query := messages[|messages| - 1].content;
        var past := MessageDicts(messages[..|messages| - 1]);
        var g := Rewrite(query, past);
        g.Ok? &&
        var results := searcher.Result(g.value.1, TopOf(o), EnablesVector(o.retrievalMode), EnablesText(o.retrievalMode),
                                       Some(g.value.2));
        results.Ok? &&
        var req := RunAnswerRequest(ChatModelArg(chatModel, chatDeployment), AnswerMessages(o, query, past, results.value),
                                    TemperatureOf(o));
        req.model == ChatModelArg(chatModel, chatDeployment) && req.temperature == TemperatureOf(o) &&
        req.maxTokens == 1024 && req.n == 1 && !req.stream && req.seed.None? && req.tools.None? &&
        req.messages == buildMessages(BuildMessagesRequest(chatModel, OrElse(o.promptTemplate, answerPromptTemplate), [],
                                                           UserContent(query, ProductSources(results.value)), past,
                                                           chatTokenLimit - 1024, None, None)) &&
        chat(req).Ok? && |chat(req).value.choices| > 0 &&
        Outcome(messages, o).value.message == chat(req).value.choices[0]
      ensures var g := Rewrite(messages[|messages| - 1].content, MessageDicts(messages[..|messages| - 1]));
        var ts := Outcome(messages, o).value.context.thoughts;
        g.Ok? &&
        searcher.Result(g.value.1, TopOf(o), EnablesVector(o.retrievalMode), EnablesText(o.retrievalMode),
                        Some(g.value.2)).Ok? &&
        |ts| == 4 &&
        ts[0].title == "Prompt to generate search arguments" &&
        ts[1].title == "Search using generated search arguments" &&
        ts[2].title == "Search results" && ts[3].title == AnswerThoughtTitle &&
        ts[1].description == Plain(g.value.1) &&
        Lookup(ts[1].props, "filters") == Some(FiltersValue(QuoteAll(g.value.2)))
    {
      var (query, past) := Question(messages).value;
      var (queryMessages, queryText, filters) := Rewrite(query, past).value;
      var results := searcher.Result(queryText, TopOf(o), EnablesVector(o.retrievalMode), EnablesText(o.retrievalMode),
                                     Some(filters)).value;
      var answerMessages := AnswerMessages(o, query, past, results);
      assert Outcome(messages, o).value.context.thoughts
          == RunThoughts(o, queryMessages, queryText, QuoteAll(filters), results, answerMessages);
      RunThoughtsInOrder(o, queryMessages, queryText, QuoteAll(filters), results, answerMessages);
    }
  }

  /** The context of a `RAGFlow` answer: the rows by id and no thoughts. */
  datatype FlowContext = FlowContext(dataPoints: map<int, map<string, Value>>,
                                     followupQuestions: Option<seq<string>> := None)

  datatype FlowResponse = FlowResponse(message: Message, context: FlowContext, sessionState: Value := Null)

  /** The product app's searcher, whose source is not part of this model: `search_and_embed`
      with a query, a row count and the filters. */
  type ProductSearch = (Value, int, seq<Filter>) -> Result<seq<ProductItem>>

  /** The number of rows `RAGFlow` always asks for. */
  const FlowTop := 3

  /** The answer temperature of `RAGFlow`. */
  const FlowTemperature: PyFloat := "0.3"

  /** The product app's answer flow. */
  class RAGFlow {
    const search: ProductSearch
    const chat: ChatClient
    const buildMessages: MessageBuilder
    const chatModel: string
    const chatTokenLimit: int
    const queryPromptTemplate: string
    const queryFewshots: seq<MessageParam>
    const answerPromptTemplate: string

    constructor (search: ProductSearch, chat: ChatClient, buildMessages: MessageBuilder, chatModel: string,
                 chatTokenLimit: int, queryPromptTemplate: string, queryFewshots: seq<MessageParam>,
                 answerPromptTemplate: string)
      ensures this.search == search && this.chat == chat && this.buildMessages == buildMessages
      ensures this.chatModel == chatModel && this.chatTokenLimit == chatTokenLimit
      ensures this.queryPromptTemplate == queryPromptTemplate && this.queryFewshots == queryFewshots
      ensures this.answerPromptTemplate == answerPromptTemplate
    {
      this.search := search;
      this.chat := chat;
      this.buildMessages := buildMessages;
      this.chatModel := chatModel;
      this.chatTokenLimit := chatTokenLimit;
      this.queryPromptTemplate := queryPromptTemplate;
      this.queryFewshots := queryFewshots;
      this.answerPromptTemplate := answerPromptTemplate;
    }

    /** The rewrite's messages: the query prompt, the few-shots, the question and the tools. */
    function QueryMessages(query: string, past: seq<MessageParam>): seq<MessageParam>
    {
      buildMessages(BuildMessagesRequest(chatModel, queryPromptTemplate, queryFewshots, query, past,
                                         chatTokenLimit - QueryResponseTokenLimit, Some(ProductSearchTools), Some("auto")))
    }

    /** The rewrite call, always with the model name. */
    function QueryRequest(queryMessages: seq<MessageParam>): CompletionRequest
    {
      CompletionRequest(chatModel, queryMessages, "0.0", QueryResponseTokenLimit, 1, false, None,
                        Some(ProductSearchTools), Some("auto"))
    }

    /** The messages of the answer call: the answer prompt, no few-shots and no tools. */
    function AnswerMessages(query: string, past: seq<MessageParam>, results: seq<ProductItem>): seq<MessageParam>
    {
      buildMessages(RunAnswerMessagesRequest(chatModel, chatTokenLimit, answerPromptTemplate, query, past, results))
    }

    /** `answer`: rewrite, search for three rows with the extracted filters, answer at 0.3. */
    function Answer(query: string, past: seq<MessageParam>): Result<FlowResponse>
    {
      var queryMessages := QueryMessages(query, past);
      match chat(QueryRequest(queryMessages))
      case Err(e) => Err(e)
      case Ok(completion) =>
        match Extract(query, completion, ProductFilterSchema)
        case Err(e) => Err(e)
        case Ok((queryText, filters)) =>
          match search(queryText, FlowTop, filters)
          case Err(e) => Err(e)
          case Ok(results) =>
            var answerMessages := AnswerMessages(query, past, results);
            match FirstChoice(chat(RunAnswerRequest(chatModel, answerMessages, FlowTemperature)))
            case Err(e) => Err(e)
            case Ok(message) =>
              Ok(FlowResponse(Message(ContentText(message.content), Assistant),
                              FlowContext(ProductDataPoints(results))))
    }

    /** Every answer sends the rewrite call with the model name (never a deployment) at
      temperature 0 with 500 tokens, one choice and the product search tool with `auto`; searches
      for three rows with the extracted query and filters; sends the answer call with the model
      name, the question and every row as a source under the answer prompt, at temperature 0.3
      with 1024 tokens; returns that call's first choice as the assistant's message; and keys
      every row by its id. */
    lemma {:induction false} AnswerIsFixed(query: string, past: seq<MessageParam>)
      requires Answer(query, past).Ok?
      ensures var q := QueryRequest(QueryMessages(query, past));
        q.model == chatModel && q.temperature == "0.0" && q.maxTokens == 500 && q.n == 1 && !q.stream &&
        q.tools.Some? && PropertyNames(q.tools.value) == Some(["search_query"] + Keys(ProductFilterSchema)) &&
        q.toolChoice == Some("auto")
      ensures var completion := chat(QueryRequest(QueryMessages(query, past)));
        completion.Ok? && Extract(query, completion.value, ProductFilterSchema).Ok? &&
        var (queryText, filters) := Extract(query, completion.value, ProductFilterSchema).value;
        var results := search(queryText, 3, filters);
        var r := Answer(query, past).value;
        results.Ok? &&
        r.message.role == Assistant && r.context.followupQuestions.None? &&
        (forall i :: 0 <= i < |results.value| ==> results.value[i].id in r.context.dataPoints) &&
        (forall i :: 0 <= i < |results.value| ==>
          OccursAt(SourceBlock(ProductIdText(results.value[i]), ProductToStrForRag(results.value[i])),
                   UserContent(query, ProductSources(results.value)),
                   SourceOffset(query, ProductSources(results.value), i))) &&
        var req := RunAnswerRequest(chatModel, AnswerMessages(query, past, results.value), FlowTemperature);
        req.model == chatModel && req.temperature == "0.3" && req.maxTokens == 1024 && req.n == 1 && !req.stream &&
        req.tools.None? &&
        req.messages == buildMessages(BuildMessagesRequest(chatModel, answerPromptTemplate, [],
                                                           UserContent(query, ProductSources(results.value)), past,
                                                           chatTokenLimit - 1024, None, None)) &&
        chat(req).Ok? && |chat(req).value.choices| > 0 &&
        r.message.content == ContentText(chat(req).value.choices[0].content)
    {
      var completion := chat(QueryRequest(QueryMessages(query, past)));
      var (queryText, filters) := Extract(query, completion.value, ProductFilterSchema).value;
      var results := search(queryText, 3, filters).value;
      var answer := chat(RunAnswerRequest(chatModel, AnswerMessages(query, past, results), FlowTemperature));
      var sources := ProductSources(results);
      ProductToolMatchesExtractor();
      UserContentShowsEverySource(query, sources);
      forall i | 0 <= i < |results|
        ensures OccursAt(SourceBlock(ProductIdText(results[i]), ProductToStrForRag(results[i])),
                         UserContent(query, sources), SourceOffset(query, sources, i))
      {
        assert sources[i] == SourceBlock(ProductIdText(results[i]), ProductToStrForRag(results[i]));
      }
    }
  }
}
