/** The two answer flows of the sessions app (src/backend/fastapi_app): the simple flow searches
    with the user's question; the advanced flow first asks the chat model to rewrite the question
    into search arguments. Both then show the rows to the chat model as numbered source blocks
    and answer, in one piece or as a stream. The searcher, the chat API and the message builder
    are the object's collaborators; the chat API and the builder are foreign functions. */
module Flows {
  import opened Common
  import opened Items
  import opened ChatApi
  import opened Fusion
  import opened Searcher
  import opened Rewriter
  import opened Api

  // ---- The sources shown to the chat model ----

  /** `f"[{item.id}]:{item.to_str_for_rag()}\n\n"`. */
  function SourceBlock(id: string, text: string): string
  {
    "[" + id + "]:" + text + "\n\n"
  }

  /** A source block is the bracketed id and a colon, then the text, then a blank line. */
  lemma SourceBlockLayout(id: string, text: string)
    ensures var b := SourceBlock(id, text);
      OccursAt("[" + id + "]:", b, 0) && OccursAt(text, b, |id| + 3) && OccursAt("\n\n", b, |id| + |text| + 3) &&
      |b| == |id| + |text| + 5
  {
    var b := SourceBlock(id, text);
    assert b[..|id| + 3] == "[" + id + "]:";
    assert b[|id| + 3..|id| + |text| + 3] == text;
    assert b[|id| + |text| + 3..|id| + |text| + 5] == "\n\n";
  }

  /** One source block per result, in result order. */
  function SourcesContent<Row>(results: seq<Row>, idText: Row -> string, ragText: Row -> string): (r: seq<string>)
    ensures |r| == |results|
    ensures forall i :: 0 <= i < |results| ==> r[i] == SourceBlock(idText(results[i]), ragText(results[i]))
    ensures forall i :: 0 <= i < |results| ==>
      var id, text := idText(results[i]), ragText(results[i]);
      OccursAt("[" + id + "]:", r[i], 0) && OccursAt(text, r[i], |id| + 3) && |r[i]| == |id| + |text| + 5
  {
    forall i | 0 <= i < |results| {
      SourceBlockLayout(idText(results[i]), ragText(results[i]));
    }
    seq(|results|, i requires 0 <= i < |results| => SourceBlock(idText(results[i]), ragText(results[i])))
  }

  /** The user message of the answer call: the question, then the blocks joined by newlines. */
  function UserContent(query: string, sources: seq<string>): string
  {
    query + "\n\nSources:\n" + Join(sources, "\n")
  }

  /** Where the `i`-th part starts in `sep.join(parts)`. */
  function JoinOffset(parts: seq<string>, sep: string, i: nat): nat
    requires i < |parts|
  {
    if i == 0 then 0 else |parts[0]| + |sep| + JoinOffset(parts[1..], sep, i - 1)
  }

  /** Every part of a join occurs in it, at its offset. */
  lemma {:induction false} JoinContains(parts: seq<string>, sep: string, i: nat)
    requires i < |parts|
    ensures OccursAt(parts[i], Join(parts, sep), JoinOffset(parts, sep, i))
    decreases |parts|
  {
    var j := Join(parts, sep);
    if |parts| == 1 {
      assert OccursAt(parts[0], j, 0);
    } else if i == 0 {
      assert j == parts[0] + (sep + Join(parts[1..], sep));
      assert j[..|parts[0]|] == parts[0];
    } else {
      var rest := Join(parts[1..], sep);
      JoinContains(parts[1..], sep, i - 1);
      assert j == (parts[0] + sep) + rest;
      OccursAfterPrefix(parts[i], parts[0] + sep, rest, JoinOffset(parts[1..], sep, i - 1));
    }
  }

  /** A piece of `s` is still a piece after a prefix is put in front. */
  lemma OccursAfterPrefix(a: string, prefix: string, s: string, k: int)
    requires OccursAt(a, s, k)
    ensures OccursAt(a, prefix + s, |prefix| + k)
  {
    assert (prefix + s)[|prefix| + k..|prefix| + k + |a|] == s[k..k + |a|];
  }

  /** Where the `i`-th source block starts in the user message. */
  function SourceOffset(query: string, sources: seq<string>, i: nat): nat
    requires i < |sources|
  {
    |query + "\n\nSources:\n"| + JoinOffset(sources, "\n", i)
  }

  /** The user message starts with the question, and every source block follows it, in order
      and without overlapping the next one. */
  lemma {:induction false} UserContentShowsEverySource(query: string, sources: seq<string>)
    ensures UserContent(query, sources)[..|query|] == query
    ensures forall i :: 0 <= i < |sources| ==>
      OccursAt(sources[i], UserContent(query, sources), SourceOffset(query, sources, i)) &&
      SourceOffset(query, sources, i) >= |query|
    ensures forall i :: 0 <= i < |sources| - 1 ==>
      SourceOffset(query, sources, i) + |sources[i]| <= SourceOffset(query, sources, i + 1)
  {
    var prefix := query + "\n\nSources:\n";
    assert UserContent(query, sources) == prefix + Join(sources, "\n");
    forall i | 0 <= i < |sources|
      ensures OccursAt(sources[i], UserContent(query, sources), SourceOffset(query, sources, i))
    {
      JoinContains(sources, "\n", i);
      OccursAfterPrefix(sources[i], prefix, Join(sources, "\n"), JoinOffset(sources, "\n", i));
    }
    forall i | 0 <= i < |sources| - 1
      ensures SourceOffset(query, sources, i) + |sources[i]| <= SourceOffset(query, sources, i + 1)
    {
      JoinOffsetsIncrease(sources, "\n", i);
    }
  }

  /** Consecutive parts of a join do not overlap. */
  lemma {:induction false} JoinOffsetsIncrease(parts: seq<string>, sep: string, i: nat)
    requires i + 1 < |parts|
    ensures JoinOffset(parts, sep, i) + |parts[i]| + |sep| == JoinOffset(parts, sep, i + 1)
    decreases i
  {
    if i > 0 {
      JoinOffsetsIncrease(parts[1..], sep, i - 1);
    }
  }

  // ---- data_points ----

  /** `{item.id: item.to_dict() for item in results}`: a later row with the same id replaces an
      earlier one. */
  function DataPoints<Id, Row>(results: seq<Row>, idOf: Row -> Id, toDict: Row -> map<string, Value>)
    : (d: map<Id, map<string, Value>>)
    ensures forall i :: 0 <= i < |results| ==> idOf(results[i]) in d
    ensures forall k :: k in d ==> exists i :: 0 <= i < |results| && idOf(results[i]) == k
  {
    if results == [] then map[]
    else
      var init := results[..|results| - 1];
      var last := results[|results| - 1];
      var d := DataPoints(init, idOf, toDict)[idOf(last) := toDict(last)];
      assert forall i :: 0 <= i < |init| ==> init[i] == results[i];
      d
  }

  /** When rows with equal ids are equal rows (as rows read by primary key are), every result's
      id maps to that result's dictionary. */
  lemma {:induction false} DataPointsByKey<Id, Row>(results: seq<Row>, idOf: Row -> Id, toDict: Row -> map<string, Value>)
    requires forall i, j :: 0 <= i < |results| && 0 <= j < |results| && idOf(results[i]) == idOf(results[j]) ==>
      results[i] == results[j]
    ensures forall i :: 0 <= i < |results| ==> DataPoints(results, idOf, toDict)[idOf(results[i])] == toDict(results[i])
  {
    if results != [] {
      var init := results[..|results| - 1];
      assert forall i :: 0 <= i < |init| ==> init[i] == results[i];
      DataPointsByKey(init, idOf, toDict);
    }
  }

  /** Rows hydrated from the table by id satisfy the premise of `DataPointsByKey` when each row
      carries its own key. */
  lemma {:induction false} HydratedRowsAreKeyed(rows: map<string, SessionItem>, ids: seq<string>)
    requires forall k :: 0 <= k < |ids| ==> ids[k] in rows
    requires forall id :: id in rows ==> rows[id].id == id
    ensures var rs := Hydrate(rows, ids);
      forall i, j :: 0 <= i < |rs| && 0 <= j < |rs| && rs[i].id == rs[j].id ==> rs[i] == rs[j]
  {
  }

  // ---- The pieces of the session flows ----

  function SessionId(x: SessionItem): string { x.id }

  function SessionRowDict(x: SessionItem): map<string, Value> { SessionToDict(x, false) }

  function SessionSources(results: seq<SessionItem>): seq<string>
  {
    SourcesContent(results, SessionIdText, SessionToStrForRag)
  }

  function SessionDataPoints(results: seq<SessionItem>): map<string, map<string, Value>>
  {
    DataPoints(results, SessionId, SessionRowDict)
  }

  /** `[result.to_dict() for result in results]`. */
  function SessionRows(results: seq<SessionItem>): (r: seq<map<string, Value>>)
    ensures |r| == |results|
  {
    seq(|results|, i requires 0 <= i < |results| => SessionRowDict(results[i]))
  }

  /** A filter record as the dictionary the caller holds. */
  function FilterValue(f: Filter): Value
  {
    Dict([("column", Str(f.column)), ("comparison_operator", f.comparisonOperator), ("value", f.value)])
  }

  function FiltersValue(fs: seq<Filter>): (v: Value)
    ensures v.List? && |v.items| == |fs|
  {
    List(seq(|fs|, i requires 0 <= i < |fs| => FilterValue(fs[i])))
  }

  /** The props of a search thought: `top` and the two flags. */
  function SearchProps(p: ChatParams): seq<(string, Value)>
  {
    [("top", Int(p.top)), ("vector_search", Bool(p.enableVectorSearch)), ("text_search", Bool(p.enableTextSearch))]
  }

  const AnswerThoughtTitle := "Prompt to generate answer"

  /** The `build_messages` call of the answer: the prompt template as system prompt, the question
      and the sources as the new user message, and the answer's budget subtracted from the
      model's token limit. */
  function AnswerMessagesRequest(chatModel: string, chatTokenLimit: int, p: ChatParams, sources: seq<string>)
    : BuildMessagesRequest
  {
    BuildMessagesRequest(chatModel, p.promptTemplate, [], UserContent(p.originalUserQuery, sources), p.pastMessages,
                         chatTokenLimit - p.responseTokenLimit, None, None)
  }

  /** The answer call: one choice, the request's temperature and token limit. */
  function AnswerRequest(chatModel: string, chatDeployment: Option<string>, messages: seq<MessageParam>,
                         p: ChatParams, stream: bool, seed: Option<int>): CompletionRequest
  {
    CompletionRequest(ChatModelArg(chatModel, chatDeployment), messages, p.temperature, p.responseTokenLimit, 1,
                      stream, seed, None, None)
  }

  /** The context of the answer: the rows by id and the earlier thoughts plus the answer prompt. */
  function AnswerContext(chatModel: string, chatDeployment: Option<string>, messages: seq<MessageParam>,
                         results: seq<SessionItem>, earlierThoughts: seq<ThoughtStep>): RAGContext<string>
  {
    RAGContext(SessionDataPoints(results),
               earlierThoughts + [ThoughtStep(AnswerThoughtTitle, Plain(MessagesValue(messages)),
                                              ModelProps(chatModel, chatDeployment))])
  }

  /** `answer`, given the outcome of the completion call. A completion without choices fails on
      `choices[0]`. */
  function AnswerResponse(completion: Result<ChatCompletion>, chatModel: string, chatDeployment: Option<string>,
                          messages: seq<MessageParam>, results: seq<SessionItem>, earlierThoughts: seq<ThoughtStep>)
    : Result<RetrievalResponse<string>>
  {
    match completion
    case Err(e) => Err(e)
    case Ok(c) =>
      if |c.choices| == 0 then Err(IndexError)
      else Ok(RetrievalResponse(Message(ContentText(c.choices[0].content), Assistant),
                                AnswerContext(chatModel, chatDeployment, messages, results, earlierThoughts)))
  }

  /** `answer` keeps the earlier thoughts and appends exactly one, the answer prompt with the
      messages sent, whose props name the deployment only when there is one. The message is the
      assistant's, and the data points key every row by its id. */
  lemma {:induction false} AnswerAppendsOneThought(completion: Result<ChatCompletion>, chatModel: string,
                                                   chatDeployment: Option<string>, messages: seq<MessageParam>,
                                                   results: seq<SessionItem>, earlierThoughts: seq<ThoughtStep>)
    requires AnswerResponse(completion, chatModel, chatDeployment, messages, results, earlierThoughts).Ok?
    ensures var r := AnswerResponse(completion, chatModel, chatDeployment, messages, results, earlierThoughts).value;
      var ts := r.context.thoughts;
      |ts| == |earlierThoughts| + 1 && ts[..|earlierThoughts|] == earlierThoughts &&
      ts[|earlierThoughts|].title == AnswerThoughtTitle &&
      ts[|earlierThoughts|].description == Plain(MessagesValue(messages)) &&
      (HasKey(ts[|earlierThoughts|].props, "deployment") <==> chatDeployment.Some? && chatDeployment.value != "") &&
      r.message.role == Assistant &&
      forall i :: 0 <= i < |results| ==> results[i].id in r.context.dataPoints
  {
  }

  /** The text of a chunk's first choice, when it has one and it is not empty. */
  function ChunkText(c: ChatChunk): Option<string>
  {
    if |c.choices| > 0 && c.choices[0].content.Some? && c.choices[0].content.value != "" then
      Some(c.choices[0].content.value)
    else None
  }

  /** One assistant delta per chunk that carries text, in order. */
  function ContentDeltas<Id>(chunks: seq<ChatChunk>): seq<RetrievalResponseDelta<Id>>
  {
    if chunks == [] then []
    else
      var init := ContentDeltas(chunks[..|chunks| - 1]);
      match ChunkText(chunks[|chunks| - 1])
      case None => init
      case Some(t) => init + [RetrievalResponseDelta(delta := Some(Message(t, Assistant)))]
  }

  /** The `async for` loop of `answer_stream`. */
  method StreamContentDeltas<Id>(chunks: seq<ChatChunk>) returns (deltas: seq<RetrievalResponseDelta<Id>>)
    ensures deltas == ContentDeltas(chunks)
  {
    deltas := [];
    for i := 0 to |chunks|
      invariant deltas == ContentDeltas(chunks[..i])
    {
      assert chunks[..i + 1][..i] == chunks[..i];
      var chunk := chunks[i];
      if |chunk.choices| > 0 && chunk.choices[0].content.Some? && chunk.choices[0].content.value != "" {
        deltas := deltas + [RetrievalResponseDelta(delta := Some(Message(chunk.choices[0].content.value, Assistant)))];
      }
    }
    assert chunks[..|chunks|] == chunks;
  }

  /** `answer_stream`, given the outcome of the streaming call: a context-only delta, then the
      content deltas. A failing call raises before anything is yielded. */
  function StreamResponse<Id>(chunks: Result<seq<ChatChunk>>, context: RAGContext<Id>)
    : Result<seq<RetrievalResponseDelta<Id>>>
  {
    match chunks
    case Err(e) => Err(e)
    case Ok(cs) => Ok([RetrievalResponseDelta(context := Some(context))] + ContentDeltas(cs))
  }

  /** All the text the model streamed, chunk by chunk (a chunk without choices or text adds nothing). */
  function StreamedText(chunks: seq<ChatChunk>): string
  {
    if chunks == [] then ""
    else
      var c := chunks[|chunks| - 1];
      StreamedText(chunks[..|chunks| - 1]) +
        (if |c.choices| > 0 && c.choices[0].content.Some? then c.choices[0].content.value else "")
  }

  /** The text the deltas carry, in order. */
  function DeltaText<Id>(deltas: seq<RetrievalResponseDelta<Id>>): string
  {
    if deltas == [] then ""
    else
      var d := deltas[|deltas| - 1];
      DeltaText(deltas[..|deltas| - 1]) + (if d.delta.Some? then d.delta.value.content else "")
  }

  /** Dropping the chunks without text loses nothing: the deltas spell out exactly the streamed
      text, and each of them is a non-empty assistant message without context. */
  lemma {:induction false} ContentDeltasKeepText<Id>(chunks: seq<ChatChunk>)
    ensures DeltaText(ContentDeltas<Id>(chunks)) == StreamedText(chunks)
    ensures forall d :: d in ContentDeltas<Id>(chunks) ==>
      d.delta.Some? && d.delta.value.content != "" && d.delta.value.role == Assistant && d.context.None?
  {
    if chunks != [] {
      var init := chunks[..|chunks| - 1];
      ContentDeltasKeepText<Id>(init);
      var ds := ContentDeltas<Id>(chunks);
      var c := chunks[|chunks| - 1];
      match ChunkText(c)
      case None =>
      case Some(t) =>
        assert ds[..|ds| - 1] == ContentDeltas<Id>(init);
    }
  }

  /** The first element of a stream carries the same context a non-streamed answer returns, and
      no text. */
  lemma {:induction false} StreamStartsWithAnswerContext(completion: Result<ChatCompletion>, chunks: Result<seq<ChatChunk>>,
                                                         chatModel: string, chatDeployment: Option<string>,
                                                         messages: seq<MessageParam>, results: seq<SessionItem>,
                                                         earlierThoughts: seq<ThoughtStep>)
    requires AnswerResponse(completion, chatModel, chatDeployment, messages, results, earlierThoughts).Ok?
    requires chunks.Ok?
    ensures var s := StreamResponse(chunks, AnswerContext(chatModel, chatDeployment, messages, results, earlierThoughts));
      s.Ok? && |s.value| >= 1 && s.value[0].delta.None? &&
      s.value[0].context == Some(AnswerResponse(completion, chatModel, chatDeployment, messages, results, earlierThoughts).value.context)
  {
  }

  /** The object that answers with the simple flow. */
  class SimpleRAGChat {
    const searcher: PostgresSearcher
    const chat: ChatClient
    const chatStream: ChatStreamClient
    const buildMessages: MessageBuilder
    const chatModel: string
    const chatDeployment: Option<string>
    const chatTokenLimit: int

    constructor (searcher: PostgresSearcher, chat: ChatClient, chatStream: ChatStreamClient,
                 buildMessages: MessageBuilder, chatModel: string, chatDeployment: Option<string>,
                 chatTokenLimit: int)
      ensures this.searcher == searcher && this.chat == chat && this.chatStream == chatStream
      ensures this.buildMessages == buildMessages && this.chatModel == chatModel
      ensures this.chatDeployment == chatDeployment && this.chatTokenLimit == chatTokenLimit
    {
      this.searcher := searcher;
      this.chat := chat;
      this.chatStream := chatStream;
      this.buildMessages := buildMessages;
      this.chatModel := chatModel;
      this.chatDeployment := chatDeployment;
      this.chatTokenLimit := chatTokenLimit;
    }

    /** `prepare_context`: search with the question and the flags (no filters), build the
      answer messages, and record two thoughts. */
    function PrepareContext(p: ChatParams): Result<(seq<MessageParam>, seq<SessionItem>, seq<ThoughtStep>)>
      requires DbValid(searcher.db)
    {
      match searcher.Result(Str(p.originalUserQuery), p.top, p.enableVectorSearch, p.enableTextSearch, None)
      case Err(e) => Err(e)
      case Ok(results) =>
        var messages := buildMessages(AnswerMessagesRequest(chatModel, chatTokenLimit, p, SessionSources(results)));
        Ok((messages, results,
            [ThoughtStep("Search query for database", Plain(Str(p.originalUserQuery)), SearchProps(p)),
             ThoughtStep("Search results", Rows(SessionRows(results)))]))
    }

    function Answer(p: ChatParams, messages: seq<MessageParam>, results: seq<SessionItem>,
                    earlierThoughts: seq<ThoughtStep>): Result<RetrievalResponse<string>>
    {
      AnswerResponse(chat(AnswerRequest(chatModel, chatDeployment, messages, p, false, p.seed)),
                     chatModel, chatDeployment, messages, results, earlierThoughts)
    }

    method AnswerStream(p: ChatParams, messages: seq<MessageParam>, results: seq<SessionItem>,
                        earlierThoughts: seq<ThoughtStep>) returns (r: Result<seq<RetrievalResponseDelta<string>>>)
      ensures r == StreamResponse(chatStream(AnswerRequest(chatModel, chatDeployment, messages, p, true, p.seed)),
                                  AnswerContext(chatModel, chatDeployment, messages, results, earlierThoughts))
    {
      var stream := chatStream(AnswerRequest(chatModel, chatDeployment, messages, p, true, p.seed));
      if stream.Err? {
        return Err(stream.error);
      }
      var first := RetrievalResponseDelta(context := Some(AnswerContext(chatModel, chatDeployment, messages, results,
                                                                        earlierThoughts)));
      var rest := StreamContentDeltas(stream.value);
      r := Ok([first] + rest);
    }

    /** The simple flow searches with the user's question, returns at most `top` (and at most
      20) rows, shows every row to the chat model as a source block after the question, and
      records exactly the two thoughts "Search query for database" and "Search results". */
    lemma {:induction false} PrepareContextGrounded(p: ChatParams)
      requires DbValid(searcher.db)
      requires PrepareContext(p).Ok?
      ensures var (messages, results, thoughts) := PrepareContext(p).value;
        results == searcher.Result(Str(p.originalUserQuery), p.top, p.enableVectorSearch, p.enableTextSearch, None).value &&
        |results| <= BranchLimit && (p.top >= 0 ==> |results| <= p.top) &&
        |thoughts| == 2 && thoughts[0].title == "Search query for database" && thoughts[1].title == "Search results" &&
        thoughts[0].description == Plain(Str(p.originalUserQuery)) &&
        forall i :: 0 <= i < |results| ==>
          OccursAt(SourceBlock(results[i].id, SessionToStrForRag(results[i])),
                   UserContent(p.originalUserQuery, SessionSources(results)),
                   SourceOffset(p.originalUserQuery, SessionSources(results), i))
    {
      var query := Str(p.originalUserQuery);
      var vector := searcher.EmbedStep(query, p.enableVectorSearch);
      var results := PrepareContext(p).value.1;
      SearchBounded(searcher.db, SessionsTable, searcher.embeddingColumn,
                    if p.enableTextSearch then query else Null, vector.value, p.top, None);
      var sources := SessionSources(results);
      UserContentShowsEverySource(p.originalUserQuery, sources);
      forall i | 0 <= i < |results|
        ensures OccursAt(SourceBlock(results[i].id, SessionToStrForRag(results[i])),
                         UserContent(p.originalUserQuery, sources), SourceOffset(p.originalUserQuery, sources, i))
      {
        assert sources[i] == SourceBlock(SessionIdText(results[i]), SessionToStrForRag(results[i]));
      }
    }

    /** The answer call sends the deployment (when set and non-empty) or the model name, the
      messages built for it, the request's temperature and token limit, one choice, no stream and
      no tools; the message returned is the assistant's, with the text of that call's first
      choice. */
    lemma {:induction false} AnswerReturnsFirstChoice(p: ChatParams, messages: seq<MessageParam>, results: seq<SessionItem>,
                                       earlierThoughts: seq<ThoughtStep>)
      requires Answer(p, messages, results, earlierThoughts).Ok?
      ensures var req := AnswerRequest(chatModel, chatDeployment, messages, p, false, p.seed);
        req.model == ChatModelArg(chatModel, chatDeployment) && req.messages == messages &&
        req.temperature == p.temperature && req.maxTokens == p.responseTokenLimit && req.n == 1 && !req.stream &&
        req.tools.None? && req.toolChoice.None? &&
        chat(req).Ok? && |chat(req).value.choices| > 0 &&
        Answer(p, messages, results, earlierThoughts).value.message
          == Message(ContentText(chat(req).value.choices[0].content), Assistant)
    {
    }

    /** The non-streamed answer passes the seed; the stream request differs from it only in
      asking for a stream. */
    lemma {:induction false} StreamRequestMatchesAnswer(p: ChatParams, messages: seq<MessageParam>)
      ensures AnswerRequest(chatModel, chatDeployment, messages, p, true, p.seed)
           == AnswerRequest(chatModel, chatDeployment, messages, p, false, p.seed).(stream := true)
      ensures AnswerRequest(chatModel, chatDeployment, messages, p, false, p.seed).seed == p.seed
    {
    }
  }

  /** The query-rewriting call's output budget. */
  const QueryResponseTokenLimit := 500

  /** The object that answers with the advanced flow. */
  class AdvancedRAGChat {
    const searcher: PostgresSearcher
    const chat: ChatClient
    const chatStream: ChatStreamClient
    const buildMessages: MessageBuilder
    const chatModel: string
    const chatDeployment: Option<string>
    const chatTokenLimit: int
    const queryPromptTemplate: string
    const queryFewshots: seq<MessageParam>

    constructor (searcher: PostgresSearcher, chat: ChatClient, chatStream: ChatStreamClient,
                 buildMessages: MessageBuilder, chatModel: string, chatDeployment: Option<string>,
                 chatTokenLimit: int, queryPromptTemplate: string, queryFewshots: seq<MessageParam>)
      ensures this.searcher == searcher && this.chat == chat && this.chatStream == chatStream
      ensures this.buildMessages == buildMessages && this.chatModel == chatModel
      ensures this.chatDeployment == chatDeployment && this.chatTokenLimit == chatTokenLimit
      ensures this.queryPromptTemplate == queryPromptTemplate && this.queryFewshots == queryFewshots
    {
      this.searcher := searcher;
      this.chat := chat;
      this.chatStream := chatStream;
      this.buildMessages := buildMessages;
      this.chatModel := chatModel;
      this.chatDeployment := chatDeployment;
      this.chatTokenLimit := chatTokenLimit;
      this.queryPromptTemplate := queryPromptTemplate;
      this.queryFewshots := queryFewshots;
    }

    /** The `build_messages` call of the rewrite: the query prompt, the few-shot examples, the
      question, and the search tool. */
    function QueryMessages(originalUserQuery: string, pastMessages: seq<MessageParam>, limit: int): seq<MessageParam>
    {
      buildMessages(BuildMessagesRequest(chatModel, queryPromptTemplate, queryFewshots, originalUserQuery, pastMessages,
                                         chatTokenLimit - limit, Some(SessionSearchTools), Some("auto")))
    }

    /** The rewrite call: temperature 0, one choice, the search tool offered with `auto`. */
    function QueryRequest(messages: seq<MessageParam>, limit: int, seed: Option<int>): CompletionRequest
    {
      CompletionRequest(ChatModelArg(chatModel, chatDeployment), messages, "0.0", limit, 1, false, seed,
                        Some(SessionSearchTools), Some("auto"))
    }

    /** `generate_search_query`: the messages sent, and the query and filters extracted from the
      model's answer. */
    function GenerateSearchQuery(originalUserQuery: string, pastMessages: seq<MessageParam>, limit: int,
                                 seed: Option<int>): Result<(seq<MessageParam>, Value, seq<Filter>)>
    {
      var messages := QueryMessages(originalUserQuery, pastMessages, limit);
      match chat(QueryRequest(messages, limit, seed))
      case Err(e) => Err(e)
      case Ok(completion) =>
        match Extract(originalUserQuery, completion, SessionFilterSchema)
        case Err(e) => Err(e)
        case Ok((queryText, filters)) => Ok((messages, queryText, filters))
    }

    /** The three thoughts of `prepare_context`. The search thought shows the filter records as
      they are after the search, that is with string values quoted. */
    function ContextThoughts(p: ChatParams, queryMessages: seq<MessageParam>, queryText: Value,
                             filtersAfterSearch: seq<Filter>, results: seq<SessionItem>): seq<ThoughtStep>
    {
      [ThoughtStep("Prompt to generate search arguments", Plain(MessagesValue(queryMessages)),
                   ModelProps(chatModel, chatDeployment)),
       ThoughtStep("Search using generated search arguments", Plain(queryText),
                   SearchProps(p) + [("filters", FiltersValue(filtersAfterSearch))]),
       ThoughtStep("Search results", Rows(SessionRows(results)))]
    }

    /** What `prepare_context` returns. */
    function Context(p: ChatParams): Result<(seq<MessageParam>, seq<SessionItem>, seq<ThoughtStep>)>
      requires DbValid(searcher.db)
    {
      match GenerateSearchQuery(p.originalUserQuery, p.pastMessages, QueryResponseTokenLimit, p.seed)
      case Err(e) => Err(e)
      case Ok((queryMessages, queryText, filters)) =>
        match searcher.Result(queryText, p.top, p.enableVectorSearch, p.enableTextSearch, Some(filters))
        case Err(e) => Err(e)
        case Ok(results) =>
          var messages := buildMessages(AnswerMessagesRequest(chatModel, chatTokenLimit, p, SessionSources(results)));
          Ok((messages, results, ContextThoughts(p, queryMessages, queryText, QuoteAll(filters), results)))
    }

    /** `prepare_context`: the extracted filter list is handed to the searcher, which quotes its
      string values in place, and the same list is then recorded in the search thought. */
    method PrepareContext(p: ChatParams) returns (r: Result<(seq<MessageParam>, seq<SessionItem>, seq<ThoughtStep>)>)
      requires DbValid(searcher.db)
      ensures r == Context(p)
    {
      var generated := GenerateSearchQuery(p.originalUserQuery, p.pastMessages, QueryResponseTokenLimit, p.seed);
      if generated.Err? {
        return Err(generated.error);
      }
      var (queryMessages, queryText, extracted) := generated.value;
      var filters := new Filter[|extracted|](i requires 0 <= i < |extracted| => extracted[i]);
      assert filters[..] == extracted;
      var results := searcher.SearchAndEmbed(queryText, p.top, p.enableVectorSearch, p.enableTextSearch, Some(filters));
      if results.Err? {
        return Err(results.error);
      }
      assert searcher.EmbedStep(queryText, p.enableVectorSearch).Ok?;
      var messages := buildMessages(AnswerMessagesRequest(chatModel, chatTokenLimit, p, SessionSources(results.value)));
      r := Ok((messages, results.value, ContextThoughts(p, queryMessages, queryText, filters[..], results.value)));
    }

    function Answer(p: ChatParams, messages: seq<MessageParam>, results: seq<SessionItem>,
                    earlierThoughts: seq<ThoughtStep>): Result<RetrievalResponse<string>>
    {
      AnswerResponse(chat(AnswerRequest(chatModel, chatDeployment, messages, p, false, p.seed)),
                     chatModel, chatDeployment, messages, results, earlierThoughts)
    }

    /** `answer_stream`, which does not pass the seed. */
    method AnswerStream(p: ChatParams, messages: seq<MessageParam>, results: seq<SessionItem>,
                        earlierThoughts: seq<ThoughtStep>) returns (r: Result<seq<RetrievalResponseDelta<string>>>)
      ensures r == StreamResponse(chatStream(AnswerRequest(chatModel, chatDeployment, messages, p, true, None)),
                                  AnswerContext(chatModel, chatDeployment, messages, results, earlierThoughts))
    {
      var stream := chatStream(AnswerRequest(chatModel, chatDeployment, messages, p, true, None));
      if stream.Err? {
        return Err(stream.error);
      }
      var first := RetrievalResponseDelta(context := Some(AnswerContext(chatModel, chatDeployment, messages, results,
                                                                        earlierThoughts)));
      var rest := StreamContentDeltas(stream.value);
      r := Ok([first] + rest);
    }

    /** The rewrite sends the deployment or the model name and offers exactly the tool whose
      arguments the extractor reads, at temperature 0 with one choice, and `prepare_context`
      gives it 500 tokens. */
    lemma {:induction false} RewriteOffersTheExtractedTool(p: ChatParams, messages: seq<MessageParam>)
      ensures var req := QueryRequest(messages, QueryResponseTokenLimit, p.seed);
        req.model == ChatModelArg(chatModel, chatDeployment) &&
        req.tools.Some? && PropertyNames(req.tools.value) == Some(["search_query"] + Keys(SessionFilterSchema)) &&
        req.temperature == "0.0" && req.maxTokens == 500 && req.n == 1 && req.toolChoice == Some("auto") &&
        req.seed == p.seed
    {
      SessionToolMatchesExtractor();
    }

    /** The advanced flow searches with the rewritten query and the extracted filters, records
      three thoughts in order, and its search thought shows the filters quoted as the search left
      them. */
    lemma {:induction false} ContextUsesRewrite(p: ChatParams)
      requires DbValid(searcher.db)
      requires Context(p).Ok?
      ensures var g := GenerateSearchQuery(p.originalUserQuery, p.pastMessages, QueryResponseTokenLimit, p.seed);
        var (messages, results, thoughts) := Context(p).value;
        g.Ok? &&
        results == searcher.Result(g.value.1, p.top, p.enableVectorSearch, p.enableTextSearch, Some(g.value.2)).value &&
        |thoughts| == 3 &&
        thoughts[0].title == "Prompt to generate search arguments" &&
        thoughts[1].title == "Search using generated search arguments" &&
        thoughts[2].title == "Search results" &&
        thoughts[1].description == Plain(g.value.1) &&
        Lookup(thoughts[1].props, "filters") == Some(FiltersValue(QuoteAll(g.value.2)))
    {
      var g := GenerateSearchQuery(p.originalUserQuery, p.pastMessages, QueryResponseTokenLimit, p.seed);
      var thoughts := Context(p).value.2;
      var props := thoughts[1].props;
      assert props[3] == ("filters", FiltersValue(QuoteAll(g.value.2)));
      assert props == props[..3] + [props[3]];
    }

    /** When the rewrite answers with neither a tool call nor text, there is no query to search
      with and the flow fails with `ValueError`. */
    lemma {:induction false} EmptyRewriteRaises(p: ChatParams)
      requires DbValid(searcher.db)
      requires var messages := QueryMessages(p.originalUserQuery, p.pastMessages, QueryResponseTokenLimit);
        chat(QueryRequest(messages, QueryResponseTokenLimit, p.seed)) == Ok(ChatCompletion([CompletionMessage(None, None)]))
      ensures Context(p) == Err(ValueError("Both query text and query vector are empty"))
    {
      ContentFallback(p.originalUserQuery, None, None, SessionFilterSchema);
      searcher.NoQueryOrNoSearchRaises(p.top, Null, p.enableVectorSearch, p.enableTextSearch, Some([]));
    }

    /** The answer call sends the deployment (when set and non-empty) or the model name, the
      messages built for it, the request's temperature and token limit, one choice, no stream and
      no tools; the message returned is the assistant's, with the text of that call's first
      choice. */
    lemma {:induction false} AnswerReturnsFirstChoice(p: ChatParams, messages: seq<MessageParam>, results: seq<SessionItem>,
                                       earlierThoughts: seq<ThoughtStep>)
      requires Answer(p, messages, results, earlierThoughts).Ok?
      ensures var req := AnswerRequest(chatModel, chatDeployment, messages, p, false, p.seed);
        req.model == ChatModelArg(chatModel, chatDeployment) && req.messages == messages &&
        req.temperature == p.temperature && req.maxTokens == p.responseTokenLimit && req.n == 1 && !req.stream &&
        req.tools.None? && req.toolChoice.None? &&
        chat(req).Ok? && |chat(req).value.choices| > 0 &&
        Answer(p, messages, results, earlierThoughts).value.message
          == Message(ContentText(chat(req).value.choices[0].content), Assistant)
    {
    }

    /** `answer` passes the request's seed; the stream drops it and otherwise sends the same request. */
    lemma {:induction false} StreamDropsSeed(p: ChatParams, messages: seq<MessageParam>)
      ensures AnswerRequest(chatModel, chatDeployment, messages, p, false, p.seed).seed == p.seed
      ensures AnswerRequest(chatModel, chatDeployment, messages, p, true, None)
           == AnswerRequest(chatModel, chatDeployment, messages, p, false, p.seed).(stream := true, seed := None)
    {
    }
  }
}
