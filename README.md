# RAG on PostgreSQL: a Dafny model of the retrieval-and-answer pipeline

This project models the core of a retrieval-augmented chat application backed by PostgreSQL
with pgvector. A user's question is turned into a database search, the rows found become
numbered sources, and a chat model answers from them. The model covers these parts:

- **Hybrid searcher** (`searcher.dfy`, `fusion.dfy`). Filter records are rendered into
  `WHERE …` / `AND …` fragments, and string values are quoted in place in the caller's records.
  `search` takes one of three paths: vector only, full text only, or hybrid. The hybrid path
  fuses the two ranked branches by reciprocal-rank fusion: `1/(60 + rank)` per branch, 0 for a
  missing side, sorted by score, at most 20 ids. The first `top` ids are hydrated in order.
  `search_and_embed` decides when to embed the question and when to drop its text. Both
  versions of the searcher are modelled: the sessions app and the earlier products app.
- **Query rewriting** (`rewriter.dfy`). This covers the `search_database` tool schemas of the
  sessions app (`mode_filter`) and the products app (`price_filter`, `brand_filter`). It also
  covers `extract_search_arguments`, which turns the model's tool calls or free text into a
  search query and a filter list.
- **Embedding arguments** (`embeddings.dfy`). Three versions of `compute_text_embedding` decide
  which models get a `dimensions` argument, when a missing dimension raises, and whether the
  deployment name or the model name is sent.
- **API records and request parameters** (`api.dfy`, `chat.dfy`). These are the request and
  response records with their defaults, and `get_params`.
- **Answer flows** (`flows.dfy`, `legacy.dfy`).
  - The simple and advanced flows of the sessions app: `prepare_context`, `answer`,
    `answer_stream`, and `generate_search_query` for the advanced flow.
  - The two `run` methods of the first version of the app.
  - `RAGFlow.answer` of the products app.
  - Each flow is a fixed sequence of stages. It yields data points keyed by row id, an ordered
    list of thought steps, and the "Sources:" text shown to the model.
- **Item records** (`items.dfy`). `to_dict`, `to_str_for_rag` and `to_str_for_embedding` for the
  session and product tables.
- **Evaluation metric** (`evaluate.dfy`). The citation-overlap metric: the share of the ground
  truth's `[n]` citations that the response repeats.
- **Seed-data converter** (`cells.dfy`, `csvjson.dfy`). The CSV-to-JSON loops and the cell
  classification chain: trim, then list, boolean, integer, float or string.

The database, the embedding API, the chat-completion API and `build_messages` are parameters of
the model (function-typed fields or arguments). Every Python exception the core can raise is an
`Err` of a `Result` (`ValueError`, `KeyError`, `TypeError`, `IndexError`, `ZeroDivisionError`,
`StopIteration`, or an error of a foreign call). Dynamic Python values (JSON arguments, row
dictionaries, thought descriptions) are the `Value` datatype of `common.dfy`.

`get_params` reads `overrides.seed` (src/backend/fastapi_app/rag_base.py:39), but
`ChatRequestOverrides` (src/backend/fastapi_app/api_models.py:25-30) declares no `seed` field.
The model's `ChatRequestOverrides` carries an optional `seed`.

The searchers treat filters as plain dictionaries that they mutate. The model keeps them as an
array of `Filter` records whose values `build_filter_clause` rewrites in place. The advanced
flows then record the quoted values in their search thought, as the code does.

## Model

| member | source | states |
|---|---|---|
| Searcher.BuildFilterClause | src/backend/fastapi_app/postgres_searcher.py:27-38 | Every string value in the caller's filter array is wrapped in single quotes in place and other values are left as they are. The returned pair is the `WHERE`/`AND` rendering of the filters as they were before the call. The older searcher (src/fastapi_app/postgres_searcher.py, lines 25-36) has the identical loop. |
| Searcher.FilterClausesCases | src/backend/fastapi_app/postgres_searcher.py:28-38 | The clauses are `("", "")` exactly when there are no filters or the list is empty. Otherwise they are `"WHERE " + j` and `"AND " + j`, where `j` joins the rendered filters with `" AND "`. |
| Searcher.QuoteAllEffect | src/backend/fastapi_app/postgres_searcher.py:32-33 | Quoting keeps each filter's column and operator, turns a string value `s` into `'s'`, and leaves any other value unchanged. |
| Searcher.SingleStringFilter | src/backend/fastapi_app/postgres_searcher.py:32-37 | One filter on a string value renders as `column op 'value'`, the value inside single quotes, behind `WHERE ` and `AND `. |
| Searcher.NumericFilterExample | src/backend/fastapi_app/postgres_searcher.py:34-37 | Example: a numeric filter renders unquoted: `WHERE price < 30` and `AND price < 30`. |
| Searcher.FiltersApplyToBothBranches | src/backend/fastapi_app/postgres_searcher.py:45-59 | For a non-empty filter list, the vector branch's `WHERE` clause and the text branch's `AND` clause carry the same condition. |
| Searcher.ChoosePath | src/backend/fastapi_app/postgres_searcher.py:78-85 | The path is hybrid iff there is text and a non-empty vector, vector-only iff there is no text and a non-empty vector, and text-only iff there is text and an empty vector. Otherwise the result is `ValueError("Both query text and query vector are empty")`, in both directions. |
| Searcher.RankedIds | src/backend/fastapi_app/postgres_searcher.py:45-85 | The ranked ids fail exactly when the path choice fails, and there are never more than 20 of them. |
| Searcher.SearchIdsAreRows | src/backend/fastapi_app/postgres_searcher.py:61-98 | Every id that `search` hydrates comes from the vector branch or the text branch under the rendered filters, and names a row of the table. |
| Searcher.SearchBounded | src/backend/fastapi_app/postgres_searcher.py:75-99 | `search` returns at most 20 rows and, for a non-negative `top`, at most `top`. It fails iff the text is absent and the vector is empty. |
| Searcher.HybridReturnsTopScores | src/backend/fastapi_app/postgres_searcher.py:61-76 | On the hybrid path, any branch id that was not returned has a fused score no higher than every id that was returned. |
| Searcher.EmptyTextIsNotAnError | src/backend/fastapi_app/postgres_searcher.py:82-83 | An empty query string counts as present text: with no vector and no full-text match it yields `[]`, not an error. |
| Searcher.SearchRows | src/backend/fastapi_app/postgres_searcher.py:40-99 | The imperative `search` (quoting loop, then hydration loop) quotes the caller's filters in place and returns exactly the rows of the fused, cut-off ranking. |
| Searcher.SearchResult | src/backend/fastapi_app/postgres_searcher.py:40-99 | That its rows are the table rows of the returned ids, at most `top` and 20 of them, is stated by `SearchIdsAreRows` and `SearchBounded`. |
| Searcher.PostgresSearcher.EmbedStep | src/backend/fastapi_app/postgres_searcher.py:112-120 | The query is embedded only when vector search is on and the text is present; otherwise the vector is empty. |
| Searcher.PostgresSearcher.Search | src/backend/fastapi_app/postgres_searcher.py:40-99 | The sessions searcher's `search` on the `sessions` table with its configured embedding column: in-place quoting, and the specified result rows. |
| Searcher.PostgresSearcher.SearchAndEmbed | src/backend/fastapi_app/postgres_searcher.py:101-124 | Embeds when needed, drops the text when text search is off, searches, and quotes the caller's filters in place. |
| Searcher.PostgresSearcher.NoQueryOrNoSearchRaises | src/backend/fastapi_app/postgres_searcher.py:112-124 | A missing query, or both search flags off, ends in `ValueError`. |
| Searcher.PostgresSearcher.EmbedsOnlyWhenNeeded | src/backend/fastapi_app/postgres_searcher.py:113-122 | When no embedding is needed, the result does not depend on the embedding client, model, deployment or dimensions at all. |
| Searcher.PostgresSearcher.TextOffMeansVectorOnly | src/backend/fastapi_app/postgres_searcher.py:121-124 | With text search off and an embedding available, the search takes the vector-only path. |
| Searcher.LegacyPostgresSearcher.EmbedStep | src/fastapi_app/postgres_searcher.py:115-123 | The older searcher embeds whenever vector search is on, without looking at the text. |
| Searcher.LegacyPostgresSearcher.Search | src/fastapi_app/postgres_searcher.py:38-102 | `search` over the `items` table and its `embedding` column: in-place quoting, three-way dispatch, fusion with k = 60, 20-row caps and `top` rows hydrated in order. |
| Searcher.LegacyPostgresSearcher.SearchAndEmbed | src/fastapi_app/postgres_searcher.py:104-127 | Embeds when vector search is on, drops the text when text search is off, searches, and quotes the caller's filters in place. |
| Searcher.LegacyPostgresSearcher.MissingQueryStillEmbedded | src/fastapi_app/postgres_searcher.py:115-127 | A missing query is still embedded when vector search is on. If the embedding call returns a non-empty vector for it, the search goes vector-only and succeeds. |
| Searcher.LegacyPostgresSearcher.NoSearchRaises | src/fastapi_app/postgres_searcher.py:80-87 | With both flags off, the older searcher raises `ValueError("Both query text and query vector are empty")`. |
| Fusion.Rank | src/backend/fastapi_app/postgres_searcher.py:46-50 | An id's rank is `r` exactly when the id sits at position `r` of the branch (1-based) and at no earlier position; so `1 <= r <= |branch|`. |
| Fusion.UnionIds | src/backend/fastapi_app/postgres_searcher.py:69-73 | The full outer join holds exactly the ids of either branch, each once when the branches have no repeats. |
| Fusion.SortByScore | src/backend/fastapi_app/postgres_searcher.py:74 | `ORDER BY score DESC`: the output is sorted by fused score, is a permutation of its input, and keeps distinctness. |
| Fusion.Fuse | src/backend/fastapi_app/postgres_searcher.py:61-76 | The fused list is sorted by score descending, has at most 20 ids, and holds only ids of the two branches. |
| Fusion.ContributionBounds | src/backend/fastapi_app/postgres_searcher.py:70-71 | A branch contributes 0 for an id it lacks, and otherwise a positive amount no larger than `1/61`. |
| Fusion.FusedScoresPositive | src/backend/fastapi_app/postgres_searcher.py:69-71 | Every fused id has a score above 0 and at most `2/61`. |
| Fusion.BetterRankScoresHigher | src/backend/fastapi_app/postgres_searcher.py:69-74 | An id ranked strictly better in the vector branch, and no worse in the text branch, gets a strictly higher fused score. |
| Fusion.FuseIsTopScores | src/backend/fastapi_app/postgres_searcher.py:74-75 | An id of either branch that the 20-row cut left out scores no higher than any id it kept. |
| Fusion.FuseDistinctAndFull | src/backend/fastapi_app/postgres_searcher.py:69-75 | With repeat-free branches, the fused ids are distinct and number `min(20, |union|)`. When the union fits in 20, every branch id is kept. |
| Rewriter.SearchToolsProperties | src/backend/fastapi_app/query_rewriter.py:9-42 | The tool schema's parameter properties are `search_query` followed by the schema's filter arguments, in order. |
| Rewriter.SearchToolsName | src/backend/fastapi_app/query_rewriter.py:9-42 | The schema is one function tool named `search_database` whose only required parameter is `search_query`. |
| Rewriter.SessionToolMatchesExtractor | src/backend/fastapi_app/query_rewriter.py:9-66 | The sessions tool offers exactly `search_query` and `mode_filter`, the arguments the extractor reads. |
| Rewriter.ProductToolMatchesExtractor | src/backend/rag_app/query_rewriter.py:9-89 | The products tool offers exactly `search_query`, `price_filter` and `brand_filter`, the arguments the extractor reads. |
| Rewriter.Subscript | src/backend/fastapi_app/query_rewriter.py:63-64 | `obj[key]` gives the key's last binding, raises `KeyError(key)` when it is absent, and raises `TypeError` on a non-object. |
| Rewriter.ArgumentFilter | src/backend/fastapi_app/query_rewriter.py:58-66 | One filter argument adds at most one filter. |
| Rewriter.SchemaFilters | src/backend/rag_app/query_rewriter.py:72-89 | One call adds at most one filter per schema argument. |
| Rewriter.ProcessErrorSticks | src/backend/fastapi_app/query_rewriter.py:50-66 | A tool call that raises ends the loop: later calls do not change the outcome. |
| Rewriter.ExtractSearchArguments | src/backend/fastapi_app/query_rewriter.py:45-69 | The imperative loop over the tool calls (reassigning the query, appending filters) returns exactly the specified extraction. The loop of src/backend/rag_app/query_rewriter.py (lines 59-92) is the same with the price/brand schema. |
| Rewriter.SearchCalls | src/backend/fastapi_app/query_rewriter.py:50-54 | The calls kept are `search_database` function calls taken from the input. When there is no such call, none is kept. |
| Rewriter.ProcessMeaning | src/backend/fastapi_app/query_rewriter.py:49-66 | Other tool calls are ignored. The last `search_database` call decides the query, and the filters of all such calls accumulate in call order. With no such call there is no query and no filter. |
| Rewriter.ToolCallsWithoutSearchGiveNothing | src/backend/fastapi_app/query_rewriter.py:49-67 | Tool calls without a `search_database` call give `(None, [])`, even when the message also has text. |
| Rewriter.ContentFallback | src/backend/fastapi_app/query_rewriter.py:67-69 | Without tool calls, non-empty content gives its stripped text and no filters. Empty or missing content gives `(None, [])`. |
| Rewriter.QueryFallsBackOnlyWhenAbsent | src/backend/fastapi_app/query_rewriter.py:57 | The user's question is the query only when `search_query` is absent. A present key, even JSON null, is taken as given. |
| Rewriter.ModeFilter | src/backend/fastapi_app/query_rewriter.py:58-66 | An absent or falsy `mode_filter` adds nothing. A truthy one adds exactly one `mode` filter with its operator and value. |
| Rewriter.PriceBeforeBrand | src/backend/rag_app/query_rewriter.py:72-89 | The price filter comes before the brand filter. Each is added only when present and truthy, with column `price` or `brand`. |
| Rewriter.MissingFilterKeyRaises | src/backend/fastapi_app/query_rewriter.py:63-64 | A filter object missing a key raises `KeyError`. The operator is looked up first. |
| Embeddings.EmbeddingRequestFor | src/backend/fastapi_app/embeddings.py:13-34 | Raises `ValueError` iff the model takes dimensions and none are given. Otherwise the request has the query and the deployment-or-model name, and carries `dimensions` iff the model takes them, with the given value. |
| Embeddings.RagAppEmbeddingRequest | src/backend/rag_app/embeddings.py:14-32 | The products app always sends the model name. |
| Embeddings.RagAppIsBackendWithoutDeployment | src/backend/rag_app/embeddings.py:23-32 | The products app's policy is the sessions app's policy with no deployment. |
| Embeddings.LegacyEmbeddingRequest | src/fastapi_app/embeddings.py:9-22 | Raises `KeyError(model)` iff the model is not in the table. Otherwise it sends `dimensions` exactly for the models that take them, and the deployment-or-model name. |
| Embeddings.LegacyAgreesOnKnownModels | src/fastapi_app/embeddings.py:18-22 | For a model in the table, the first version sends the same request as the sessions app given the same dimensions. |
| Embeddings.UnknownModelDiffers | src/backend/fastapi_app/embeddings.py:22-27 | A model outside the table gets no `dimensions` and no error in the sessions app, but `KeyError` in the first version. |
| Embeddings.Ada002NeverGetsDimensions | src/backend/fastapi_app/embeddings.py:13-27 | `text-embedding-ada-002` never receives `dimensions`, even when some are given. |
| Embeddings.FirstEmbedding | src/backend/fastapi_app/embeddings.py:29-35 | The result is the first embedding of a successful call. It fails whenever the request or the call fails, or no embedding comes back. |
| Items.SessionToDict | src/backend/fastapi_app/postgres_models.py:29-37 | The dictionary has every column, without the two embedding columns unless they are asked for, each mapped to the row's value. |
| Items.SessionDictRoundTrip | src/backend/fastapi_app/postgres_models.py:29-37 | The full dictionary gives the row back. |
| Items.SessionDictIgnoresEmbeddings | src/backend/fastapi_app/postgres_models.py:34-36 | The default dictionary does not depend on the embeddings. |
| Items.SessionRagShowsFields | src/backend/fastapi_app/postgres_models.py:39-40 | The rag text is exactly the labels `Title:`, ` Description:`, ` Speakers:`, ` Tracks:`, ` Day:`, ` Time:`, ` Mode:` in that order, each followed by its field (the lists as Python prints them). Each label and field sits where the earlier ones end. |
| Items.SessionToStrForRag | src/backend/fastapi_app/postgres_models.py:39-40 | Its layout is stated by `SessionRagShowsFields`. |
| Items.SessionEmbeddingIgnoresSpeakersAndTime | src/backend/fastapi_app/postgres_models.py:42-43 | Speakers and time never reach the embedded text. |
| Items.SessionEmbeddingShowsFields | src/backend/fastapi_app/postgres_models.py:42-43 | The embedding text is exactly the labels `Name: ` (for the title), ` Description: `, ` Tracks: `, ` Day: `, ` Mode: ` in that order, each followed by its field (the track list as Python prints it). Each label and field sits where the earlier ones end. |
| Items.SessionToStrForEmbedding | src/backend/fastapi_app/postgres_models.py:42-43 | Its layout is stated by `SessionEmbeddingShowsFields`, and what it leaves out by `SessionEmbeddingIgnoresSpeakersAndTime`. |
| Items.ProductToDict | src/backend/rag_app/postgres_models.py:23-27 | The dictionary has every column, without `embedding` unless it is asked for, each mapped to the row's value. |
| Items.ProductDictRoundTrip | src/backend/rag_app/postgres_models.py:23-27 | The full dictionary gives the row back. |
| Items.ProductRagShowsFields | src/backend/rag_app/postgres_models.py:29-30 | The rag text is exactly the labels `Name:`, ` Description:`, ` Price:`, ` Brand:`, ` Type:` in that order, each followed by its field. Each label and field sits where the earlier ones end. |
| Items.ProductToStrForRag | src/backend/rag_app/postgres_models.py:29-30 | Its layout is stated by `ProductRagShowsFields`. |
| Items.ProductEmbeddingIgnoresPriceAndBrand | src/backend/rag_app/postgres_models.py:32-33 | Price and brand never reach the embedded text. |
| Items.ProductEmbeddingShowsFields | src/backend/rag_app/postgres_models.py:32-33 | The embedding text is exactly the labels `Name: `, ` Description: `, ` Type: ` in that order, each followed by its field. Each label and field sits where the earlier ones end. |
| Items.ProductToStrForEmbedding | src/backend/rag_app/postgres_models.py:32-33 | Its layout is stated by `ProductEmbeddingShowsFields`, and what it leaves out by `ProductEmbeddingIgnoresPriceAndBrand`. |
| Api.RoleName | src/backend/fastapi_app/api_models.py:8-11 | `user`, `assistant` and `system` are the wire values of the user, assistant and system roles, one each. |
| Api.RoleNameRoundTrip | src/backend/fastapi_app/api_models.py:8-11 | Reading a role back from its wire value gives the role. Any value that reads as a role is that role's wire value. |
| Api.ModeName | src/backend/fastapi_app/api_models.py:19-22 | `text`, `vectors` and `hybrid` are the wire values of the text, vector and hybrid modes, one each. |
| Api.ModeNameRoundTrip | src/backend/fastapi_app/api_models.py:19-22 | Reading a mode back from its wire value gives the mode. Any value that reads as a mode is that mode's wire value. |
| Api.DefaultOverrides | src/backend/fastapi_app/api_models.py:25-30 | Overrides default to top 3, temperature 0.3, hybrid retrieval, the advanced flow and no prompt template. A message defaults to the user role, thought props to empty, and every delta field to absent. |
| Api.GetParams | src/backend/fastapi_app/rag_base.py:24-48 | An empty conversation raises `IndexError`. A last message without content raises `KeyError("content")`. Non-string content raises `ValueError("The most recent message content must be a string.")`. It succeeds iff the last content is a string. |
| Api.GetParamsSplitsConversation | src/backend/fastapi_app/rag_base.py:31-34 | The history is every earlier message in order, and the question is the last message's content. |
| Api.ModeFlags | src/backend/fastapi_app/rag_base.py:28-29 | Text search is on iff the mode is not `vectors`, and vector search iff it is not `text`. Every mode enables at least one. |
| Api.ModeFlagsOfRawValues | src/fastapi_app/rag_simple.py:34-35 | A missing mode enables both branches. A value that is none of the three enables neither. |
| Api.GetParamsFromOverrides | src/backend/fastapi_app/rag_base.py:25-41 | The token limit is 1024. The prompt is the override unless it is missing or empty. The flags follow the mode. `top`, `temperature`, `seed`, the mode and the flow flag are copied unchanged. |
| ChatApi.ChatModelArg | src/backend/fastapi_app/rag_simple.py:87 | The model sent is the deployment when it is set and non-empty, else the chat model. |
| ChatApi.ModelProps | src/backend/fastapi_app/rag_simple.py:107-111 | Prompt thoughts always name the model, and name the deployment iff it is set and non-empty. |
| Flows.SourcesContent | src/backend/fastapi_app/rag_simple.py:48 | One block per result, in result order. Each block is `[id]:` at its start, the result's rag text right after it, and a blank line at its end, with nothing else. |
| Flows.UserContentShowsEverySource | src/backend/fastapi_app/rag_simple.py:48-55 | The user message starts with the question. Every source block occurs in it, in order and without overlap. |
| Flows.DataPoints | src/backend/fastapi_app/rag_simple.py:101 | Every result's id is a key, and every key is some result's id. |
| Flows.DataPointsByKey | src/backend/fastapi_app/rag_simple.py:101 | When equal ids mean equal rows, each result's id maps to that result's dictionary. |
| Flows.HydratedRowsAreKeyed | src/backend/fastapi_app/postgres_searcher.py:96-98 | Rows hydrated by primary key have equal ids only when they are equal rows. |
| Flows.AnswerAppendsOneThought | src/backend/fastapi_app/rag_simple.py:96-115 | `answer` keeps the earlier thoughts and appends exactly one "Prompt to generate answer" step with the messages sent. It answers as the assistant, and the data points cover every result. |
| Flows.StreamContentDeltas | src/backend/fastapi_app/rag_simple.py:154-159 | The chunk loop yields one assistant delta per chunk whose first choice has non-empty text, in order. |
| Flows.ContentDeltasKeepText | src/backend/fastapi_app/rag_simple.py:154-159 | The deltas spell out exactly the streamed text. Each is a non-empty assistant message without context. |
| Flows.StreamStartsWithAnswerContext | src/backend/fastapi_app/rag_simple.py:137-153 | The first element of the stream has no delta and carries the same context that `answer` returns. |
| Flows.SimpleRAGChat.PrepareContextGrounded | src/backend/fastapi_app/rag_simple.py:35-76 | Searches with the question and no filters, and returns at most `top` (and 20) rows. Every row is shown as a source block after the question. There are exactly the two thoughts "Search query for database" and "Search results". |
| Flows.SimpleRAGChat.PrepareContext | src/backend/fastapi_app/rag_simple.py:35-76 | What it promises is stated by `PrepareContextGrounded`. |
| Flows.SimpleRAGChat.AnswerReturnsFirstChoice | src/backend/fastapi_app/rag_simple.py:85-99 | The answer call sends the deployment (when set and non-empty) or the model name, the built messages, the request's temperature and token limit, one choice, no stream and no tools. It succeeds with at least one choice, and the returned message is the assistant's with the text of the first choice's content. |
| Flows.SimpleRAGChat.Answer | src/backend/fastapi_app/rag_simple.py:78-115 | What it promises is stated by `AnswerReturnsFirstChoice`, `AnswerAppendsOneThought` and `StreamRequestMatchesAnswer`. |
| Flows.SimpleRAGChat.AnswerStream | src/backend/fastapi_app/rag_simple.py:117-160 | The stream call carries the seed. A context-only delta comes first, then the content deltas. |
| Flows.SimpleRAGChat.StreamRequestMatchesAnswer | src/backend/fastapi_app/rag_simple.py:85-135 | The stream request is the answer request with `stream` set, seed included. |
| Flows.AdvancedRAGChat.PrepareContext | src/backend/fastapi_app/rag_advanced.py:77-134 | Rewrites, hands the extracted filter array to the searcher (which quotes it in place) and records it. The result is the specified context. |
| Flows.AdvancedRAGChat.GenerateSearchQuery | src/backend/fastapi_app/rag_advanced.py:37-75 | What it promises is stated by `RewriteOffersTheExtractedTool`, `ContextUsesRewrite` and `EmptyRewriteRaises`. |
| Flows.AdvancedRAGChat.AnswerReturnsFirstChoice | src/backend/fastapi_app/rag_advanced.py:143-157 | The answer call sends the deployment (when set and non-empty) or the model name, the built messages, the request's temperature and token limit, one choice, no stream and no tools. It succeeds with at least one choice, and the returned message is the assistant's with the text of the first choice's content. |
| Flows.AdvancedRAGChat.Answer | src/backend/fastapi_app/rag_advanced.py:136-173 | What it promises is stated by `AnswerReturnsFirstChoice`, `AnswerAppendsOneThought` and `StreamDropsSeed`. |
| Flows.AdvancedRAGChat.RewriteOffersTheExtractedTool | src/backend/fastapi_app/rag_advanced.py:61-83 | The rewrite sends the deployment (when set and non-empty) or the model name, and offers exactly the tool the extractor reads, with temperature 0, 500 tokens, one choice, `tool_choice` `auto`, and the request's seed. |
| Flows.AdvancedRAGChat.ContextUsesRewrite | src/backend/fastapi_app/rag_advanced.py:86-133 | Searches with the rewritten query and the extracted filters. The three thoughts come in order, and the search thought shows the query and the quoted filters. |
| Flows.AdvancedRAGChat.EmptyRewriteRaises | src/backend/fastapi_app/rag_advanced.py:73-94 | A rewrite with neither a tool call nor text leaves no query, and the flow raises `ValueError`. |
| Flows.AdvancedRAGChat.AnswerStream | src/backend/fastapi_app/rag_advanced.py:175-218 | The stream call carries no seed. A context-only delta comes first, then the content deltas. |
| Flows.AdvancedRAGChat.StreamDropsSeed | src/backend/fastapi_app/rag_advanced.py:143-192 | `answer` passes the seed. The stream sends the same request with `stream` set and no seed. |
| Legacy.MessageDicts | src/fastapi_app/rag_simple.py:38-39 | One dictionary per message, in order. Each has exactly the keys `content` and `role`, holding the message's content and role. |
| Legacy.Question | src/fastapi_app/rag_simple.py:38-39 | An empty conversation raises `IndexError`. Otherwise the question is the last content and the history is every earlier message. |
| Legacy.FirstChoice | src/fastapi_app/rag_simple.py:69 | Succeeds iff the call succeeded with at least one choice, and gives the first choice. No choices raises `IndexError`. |
| Legacy.LegacySimpleRAGChat.Run | src/fastapi_app/rag_simple.py:31-99 | What it promises is stated by `RunGrounded`. |
| Legacy.LegacySimpleRAGChat.RunGrounded | src/fastapi_app/rag_simple.py:31-99 | Searches with the question, `top` (3 by default) and the mode's flags (a missing mode enables both). The context keys every row by id and holds exactly three thoughts in order. The first shows the question only when text search is on. The answer call sends the model argument, the messages `build_messages` returns for the overridden prompt or the answer prompt, the question followed by every row as a source, and a budget of the token limit minus 1024. It asks for 1024 tokens and one unstreamed choice, with no seed and no tools, at the overridden temperature or 0.3. Its first choice is the message returned. |
| Legacy.LegacyAdvancedRAGChat.Run | src/fastapi_app/rag_advanced.py:36-142 | The run hands the extracted filter array to the searcher (quoted in place) and records it. The result is the specified outcome. |
| Legacy.LegacyAdvancedRAGChat.RewriteOffersTheExtractedTool | src/fastapi_app/rag_advanced.py:47-66 | The rewrite sends the deployment (when set and non-empty) or the model name, and offers exactly the tool the extractor reads, with temperature 0, 500 tokens, one choice, `auto`, and no seed. |
| Legacy.LegacyAdvancedRAGChat.RunThoughtsInOrder | src/fastapi_app/rag_advanced.py:107-140 | There are exactly four thoughts in fixed order. The search thought shows the query and the filters. |
| Legacy.LegacyAdvancedRAGChat.RunUsesRewrite | src/fastapi_app/rag_advanced.py:67-140 | Searches with the rewritten query and the extracted filters. The four thoughts come in order, and the search thought shows the quoted filters. The answer call sends the messages `build_messages` returns for the overridden prompt or the answer prompt and the original question followed by every row as a source. It asks for 1024 tokens and one unstreamed choice, with no seed and no tools, at the overridden temperature or 0.3. Its first choice is the message returned. |
| Legacy.RAGFlow.AnswerIsFixed | src/backend/rag_app/rag_flow.py:33-98 | The rewrite call sends the model name at temperature 0 with 500 tokens and one choice, offering the `search_database` tool (`search_query`, then the price and brand filters) with `tool_choice` `auto`. The search asks for 3 rows with the extracted query and filters. The answer call sends the model name and the messages `build_messages` returns for the answer prompt and the question followed by every row as a source. It asks for 1024 tokens and one unstreamed choice, without tools, at 0.3. The returned message is the assistant's, with the text of that call's first choice. The data points cover every row, and there are no thoughts. |
| Legacy.RAGFlow.Answer | src/backend/rag_app/rag_flow.py:33-98 | What it promises is stated by `AnswerIsFixed`. |
| Evaluate.FindCitationsExact | evals/evaluate.py:27-28 | The scan finds exactly the digit runs enclosed in brackets: all of them and nothing else. |
| Evaluate.FindCitations | evals/evaluate.py:27-28 | Every citation the scan finds is a non-empty run of digits. That it finds all of them is `FindCitationsExact`. |
| Evaluate.CitationsAreSpans | evals/evaluate.py:27-28 | The citation set of a text is the set of its bracketed digit runs. |
| Evaluate.CitationsOverlap | evals/evaluate.py:23-32 | No response gives the sentinel (-1). A ground truth without citations divides by zero. Otherwise the ratio lies between 0 and 1. |
| Evaluate.FullAndNoOverlap | evals/evaluate.py:30-32 | The score is 1 iff the response cites every ground-truth citation, and 0 iff it cites none. |
| Evaluate.ExtraCitationsDoNotCount | evals/evaluate.py:31 | The score depends only on which ground-truth citations the response repeats. |
| Evaluate.MoreCitationsScoreHigher | evals/evaluate.py:31-32 | Citing more never lowers the score. |
| Evaluate.BracketedNameIsNoCitation | evals/evaluate.py:27-28 | A text opening with a bracket and a non-digit, with no later bracket, has no citations. |
| Evaluate.FileNameIsNoCitation | evals/evaluate.py:27-28 | Example: `[Benefit_Options-2.pdf]` is not a citation. |
| Evaluate.RepeatedCitationCountsOnce | evals/evaluate.py:27-28 | Example: a citation repeated in the text is found twice but counted once. |
| Evaluate.NoBracketNoCitation | evals/evaluate.py:27-28 | A text with no `[` has no citations. |
| CsvCells.ReplaceQuotes | convert_csv_json.py:23 | No single quote is left. Each single quote becomes a double quote in its place, and every other character is kept where it was. |
| CsvCells.RemoveFirst | convert_csv_json.py:39 | With a dot present, the result is the text with its first dot (at `IndexOf`, the first position) cut out, one character shorter. Without one, the text is unchanged. |
| CsvCells.ClassifyCell | convert_csv_json.py:18-40 | The reassignment chain on `value` gives exactly the classification of the cell. |
| CsvCells.ClassifyTrims | convert_csv_json.py:18 | A cell is classified by its trimmed text. |
| CsvCells.StripIdempotent | convert_csv_json.py:18 | Trimming twice is trimming once. |
| CsvCells.BracketedIsParsedOrKept | convert_csv_json.py:20-30 | A bracketed value is the JSON parse of its re-quoted text, else the literal parse, else the text itself. It is never a boolean or a number. |
| CsvCells.ScalarCells | convert_csv_json.py:32-40 | An unbracketed value is a boolean exactly for `true`/`false` in any case. It is an integer exactly for other all-digit text. It is a float exactly for the remaining text that is digits once its first dot is removed and has at most one dot; such text has exactly one dot, and the float keeps the trimmed text. It is a string, the text itself, exactly otherwise. |
| CsvCells.TrueInAnyCase | convert_csv_json.py:32-33 | Example: `" TRUE "` becomes the boolean true. |
| CsvCells.DigitsAreInt | convert_csv_json.py:37-38 | Example: `"42"` becomes the integer 42. |
| CsvCells.OneDotIsFloat | convert_csv_json.py:39-40 | Example: `"3.5"` becomes a float. |
| CsvCells.TwoDotsStayText | convert_csv_json.py:39-40 | Example: `"1.2.3"` stays a string. |
| CsvJson.ConvertCsv | convert_csv_json.py:9-45 | The row loop gives exactly the conversion. An empty file raises `StopIteration`, and the first row without `is_open` raises `KeyError`. |
| CsvJson.RowRecord | convert_csv_json.py:15-42 | The column loop builds exactly the row's record. |
| CsvJson.RecordKeys | convert_csv_json.py:16-42 | A record's keys are the header columns the row has a cell for. |
| CsvJson.RecordValues | convert_csv_json.py:16-42 | With distinct column names, each such column holds its cell's value. |
| CsvJson.RowValues | convert_csv_json.py:16-44 | Every converted column other than `is_open` holds the classification of its cell. |
| CsvJson.ExtraCellsIgnored | convert_csv_json.py:16-17 | Cells beyond the header change nothing. |
| CsvJson.ConvertRow | convert_csv_json.py:15-44 | A converted row never has `is_open`, and the only failure is `KeyError("is_open")`. |
| CsvJson.ConvertAll | convert_csv_json.py:14-45 | A successful conversion has one record per data row, none with `is_open`. The only failure is `KeyError("is_open")`. |
| CsvJson.Convert | convert_csv_json.py:9-45 | It raises `StopIteration` exactly for an empty file. Otherwise the only failure is `KeyError("is_open")`, and success gives one record per row after the header. |
| CsvJson.IsOpenRemoved | convert_csv_json.py:44 | A row converts iff it has an `is_open` cell, the failure is `KeyError("is_open")`, and the record never keeps that column. |
| CsvJson.FirstErrorStops | convert_csv_json.py:14-45 | The first failing row decides the outcome. |
| CsvJson.OneRecordPerRow | convert_csv_json.py:13-45 | There is one record per data row, in order, each that row's conversion. The script fails iff some row fails. |

## Left out

- SQL text, pgvector distances, `ts_rank_cd` scoring and `RANK()` ties are not modelled. Each branch is the ordered id list a database oracle returns, and rank is position + 1. Hydration is a lookup in a map from id to row.
- Fusion.SortByScore: SQL leaves the order among equal fused scores unspecified. The model fixes one order (vector-branch order, then text-only ids in text order), so a database that breaks ties differently may return other ids at the 20-row cut.
- Floating-point arithmetic is not modelled. Fused scores are reals. Temperatures, prices and embeddings are kept as their printed literal. A converted float keeps the trimmed cell text (`"3.50"`, `".5"`), not Python's printing of the float. The citation metric's ratio is kept as its two counts.
- Network calls are parameters of the model: the embedding API, the chat-completion API (streamed and not) and `build_messages` with its token-budget truncation. The same goes for `get_token_limit`, whose result is a constructor argument, and for the prompt files read at start-up.
- `json.loads` of tool arguments is not modelled: arguments arrive as parsed key/value lists. `json.loads` and `ast.literal_eval` in the converter are parser parameters that fail or return a value.
- Python's `str()`/`repr()` of lists and dictionaries is modelled with simple quoting; escapes inside strings are not modelled.
- `lower` and `isdigit` are modelled on ASCII letters and digits. `strip` removes the ASCII and Latin-1 whitespace and separator characters Python strips below U+0100. Unicode digits, case folding and whitespace above U+00FF are not modelled.
- Flows.DataPoints: the response model declares `data_points` as a dictionary keyed by integers. Validating the response would turn numeric string ids into integers and reject non-numeric ones. This validation is not modelled: the sessions flows keep the string ids as keys.
- Dictionary key order is not modelled for row dictionaries and converted records, which are maps. Dictionaries that are JSON values keep their order as key/value lists.
- BuildFilterClause: filters are an array of records, so one dictionary listed twice (aliased) cannot be expressed; quoting it twice is not modelled.
- The first version's overrides are a typed record of optional fields, and its messages are `content`/`role` records. Values of other types under those keys are not modelled.
- `RAGFlow` takes the products app's search as a parameter. src/backend/rag_app/postgres_searcher.py is not part of this model.
- The first version's flows use the product rewriter and the product item. src/fastapi_app/query_rewriter.py and src/fastapi_app/postgres_models.py are not part of this model.
- `ComputeTextEmbedding`, `RagAppComputeTextEmbedding` and `LegacyComputeTextEmbedding` have no contract of their own; their meaning is carried by the request functions and `FirstEmbedding`.
- CsvCells.Classify: a parser either returns a value or raises one of the two exceptions the script catches. An exception that escapes `except (ValueError, SyntaxError)` is not modelled. Examples are `TypeError` from `ast.literal_eval` on an unhashable dictionary key such as `[{[1]: 2}]`, and `RecursionError` on deep nesting. Such an exception would end the script.
- CsvJson.ConvertCsv: the loop is proved for any cell reader. That the script's reader is the classification chain is proved separately, by `CsvCells.ClassifyCell` and `CsvJson.RowValues`.
- Reading the CSV file (quoting dialect, escapes), writing the JSON file and the final message printed are not modelled. Rows arrive already split into cells.
- The async generators' concurrency and cancellation are not modelled: a stream is a finite sequence of chunks.
- HTTP routing, configuration, credentials, database engines, offline scripts, the frontend and the pandas aggregation of the metric are outside the core.
- No SQL-injection safety is claimed: the filter rendering does no escaping, and the model does not add any.
