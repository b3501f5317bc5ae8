/** The query rewriter, in its two versions: the `search_database` tool offered to the chat
    model (sessions: a `mode_filter`; products: a `price_filter` and a `brand_filter`), and the
    extraction of the search query and the filter records from the model's answer. */
module Rewriter {
  import opened Common
  import opened ChatApi
  import opened Searcher

  /** Which argument of the tool call becomes a filter on which column, in the order the
      extractor appends them. */
  type FilterSchema = seq<(string, string)>

  const SessionFilterSchema: FilterSchema := [("mode_filter", "mode")]
  const ProductFilterSchema: FilterSchema := [("price_filter", "price"), ("brand_filter", "brand")]

  const SearchFunctionName := "search_database"

  // ---- The tool schema (`build_search_function`) ----

  function ObjectProperty(description: string, operatorDescription: string, valueType: string,
                          valueDescription: string): Value
  {
    Dict([("type", Str("object")), ("description", Str(description)),
          ("properties", Dict([
            ("comparison_operator", Dict([("type", Str("string")), ("description", Str(operatorDescription))])),
            ("value", Dict([("type", Str(valueType)), ("description", Str(valueDescription))]))]))])
  }

  /** The `search_query` argument: a string, described with an example query. */
  function QueryProperty(queryExample: string): Value
  {
    Dict([
      ("type", Str("string")),
      ("description", Str("Query string to use for full text search, e.g. '" + queryExample + "'"))])
  }

  /** The `parameters` object of the tool: `search_query` and the filter arguments, with
      `search_query` required. */
  function SearchParameters(queryExample: string, filterProperties: seq<(string, Value)>): Value
  {
    Dict([
      ("type", Str("object")),
      ("properties", Dict([
        ("search_query", QueryProperty(queryExample))]
        + filterProperties)),
      ("required", List([Str("search_query")]))])
  }

  /** The `function` object of the tool. */
  function SearchFunction(description: string, queryExample: string, filterProperties: seq<(string, Value)>): Value
  {
    Dict([
      ("name", Str(SearchFunctionName)),
      ("description", Str(description)),
      ("parameters", SearchParameters(queryExample, filterProperties))])
  }

  /** `build_search_function()`: a list of one function tool. */
  function SearchTools(description: string, queryExample: string, filterProperties: seq<(string, Value)>): Value
  {
    List([Dict([("type", Str("function")), ("function", SearchFunction(description, queryExample, filterProperties))])])
  }

  /** The tool list of src/backend/fastapi_app/query_rewriter.py. */
  const SessionSearchTools: Value :=
    SearchTools("Search PostgreSQL database for relevant conference sessions based on user query", "python AI",
                SessionFilterProperties)

  /** The tool list of src/backend/rag_app/query_rewriter.py. */
  const ProductSearchTools: Value :=
    SearchTools("Search PostgreSQL database for relevant products based on user query", "red shoes",
                ProductFilterProperties)

  /** `obj[key]` on a parsed JSON value. */
  function Subscript(v: Value, key: string): (r: Result<Value>)
    ensures v.Dict? && HasKey(v.entries, key) ==> r == Ok(Lookup(v.entries, key).value)
    ensures v.Dict? && !HasKey(v.entries, key) ==> r == Err(KeyError(key))
    ensures !v.Dict? ==> r.Err? && r.error.TypeError?
  {
    match v
    case Dict(entries) =>
      (match Lookup(entries, key)
       case Some(x) => Ok(x)
       case None => Err(KeyError(key)))
    case List(_) => Err(TypeError("list indices must be integers or slices, not str"))
    case Str(_) => Err(TypeError("string indices must be integers, not 'str'"))
    case Null => Err(TypeError("'NoneType' object is not subscriptable"))
    case Bool(_) => Err(TypeError("'bool' object is not subscriptable"))
    case Int(_) => Err(TypeError("'int' object is not subscriptable"))
    case Float(_) => Err(TypeError("'float' object is not subscriptable"))
  }

  /** The tool's property names (`parameters.properties`), in order. */
  function PropertyNames(tools: Value): Option<seq<string>>
  {
    if tools.List? && |tools.items| == 1 then
      match Subscript(tools.items[0], "function")
      case Err(_) => None
      case Ok(f) =>
        match Subscript(f, "parameters")
        case Err(_) => None
        case Ok(p) =>
          match Subscript(p, "properties")
          case Ok(Dict(props)) => Some(Keys(props))
          case _ => None
    else None
  }

  /** The keys of a list of pairs, in order. */
  function Keys<V>(pairs: seq<(string, V)>): seq<string>
  {
    seq(|pairs|, i requires 0 <= i < |pairs| => pairs[i].0)
  }

  /** The property names of a `SearchTools` list are `search_query` and then its filter arguments. */
  lemma {:induction false} SearchToolsProperties(description: string, queryExample: string,
                                                 filterProperties: seq<(string, Value)>)
    ensures PropertyNames(SearchTools(description, queryExample, filterProperties))
         == Some(["search_query"] + Keys(filterProperties))
  {
    ToolFunction(description, queryExample, filterProperties);
    FunctionParameters(description, queryExample, filterProperties);
    ParametersProperties(queryExample, filterProperties);
    KeysCons("search_query", QueryProperty(queryExample), filterProperties);
  }

  lemma ToolFunction(description: string, queryExample: string, filterProperties: seq<(string, Value)>)
    ensures Subscript(SearchTools(description, queryExample, filterProperties).items[0], "function")
         == Ok(SearchFunction(description, queryExample, filterProperties))
  {
  }

  lemma FunctionParameters(description: string, queryExample: string, filterProperties: seq<(string, Value)>)
    ensures Subscript(SearchFunction(description, queryExample, filterProperties), "parameters")
         == Ok(SearchParameters(queryExample, filterProperties))
  {
  }

  lemma ParametersProperties(queryExample: string, filterProperties: seq<(string, Value)>)
    ensures Subscript(SearchParameters(queryExample, filterProperties), "properties")
         == Ok(Dict([("search_query", QueryProperty(queryExample))] + filterProperties))
  {
    var entries := SearchParameters(queryExample, filterProperties).entries;
    assert entries[2].0 == "required" != "properties";
    assert Lookup(entries, "properties") == Lookup(entries[..2], "properties");
  }

  lemma KeysCons<V>(key: string, value: V, pairs: seq<(string, V)>)
    ensures Keys([(key, value)] + pairs) == [key] + Keys(pairs)
  {
    var all := [(key, value)] + pairs;
    assert forall i :: 0 <= i < |pairs| ==> all[i + 1] == pairs[i];
  }

  const SessionFilterProperties: seq<(string, Value)> :=
    [("mode_filter", ObjectProperty(
      "Filter search results based on mode of the session",
      "Operator to compare the column value, either '=' or '!='",
      "string", "Possible values are 'In-person', 'Livestream', or 'Recorded'."))]

  const ProductFilterProperties: seq<(string, Value)> :=
    [("price_filter", ObjectProperty(
       "Filter search results based on price of the product",
       "Operator to compare the column value, either '>', '<', '>=', '<=', '='",
       "number", "Value to compare against, e.g. 30")),
     ("brand_filter", ObjectProperty(
       "Filter search results based on brand of the product",
       "Operator to compare the column value, either '=' or '!='",
       "string", "Value to compare against, e.g. AirStrider"))]

  /** The one tool offered is a function named `search_database` whose only required
      parameter is `search_query`. */
  lemma SearchToolsName(description: string, queryExample: string, filterProperties: seq<(string, Value)>)
    ensures var tools := SearchTools(description, queryExample, filterProperties);
      |tools.items| == 1 && Subscript(tools.items[0], "type") == Ok(Str("function"))
    ensures var f := Subscript(SearchTools(description, queryExample, filterProperties).items[0], "function");
      f.Ok? && Subscript(f.value, "name") == Ok(Str(SearchFunctionName)) &&
      Subscript(f.value, "parameters").Ok? &&
      Subscript(Subscript(f.value, "parameters").value, "required") == Ok(List([Str("search_query")]))
  {
    ToolType(description, queryExample, filterProperties);
    ToolFunction(description, queryExample, filterProperties);
    FunctionName(description, queryExample, filterProperties);
    FunctionParameters(description, queryExample, filterProperties);
    ParametersRequired(queryExample, filterProperties);
  }

  lemma ToolType(description: string, queryExample: string, filterProperties: seq<(string, Value)>)
    ensures Subscript(SearchTools(description, queryExample, filterProperties).items[0], "type") == Ok(Str("function"))
  {
    var entries := SearchTools(description, queryExample, filterProperties).items[0].entries;
    assert entries[1].0 == "function" != "type";
    assert Lookup(entries, "type") == Lookup(entries[..1], "type");
  }

  lemma FunctionName(description: string, queryExample: string, filterProperties: seq<(string, Value)>)
    ensures Subscript(SearchFunction(description, queryExample, filterProperties), "name") == Ok(Str(SearchFunctionName))
  {
    var entries := SearchFunction(description, queryExample, filterProperties).entries;
    assert entries[2].0 == "parameters" != "name";
    assert entries[1].0 == "description" != "name";
    assert Lookup(entries, "name") == Lookup(entries[..2], "name");
    assert Lookup(entries[..2], "name") == Lookup(entries[..1], "name");
  }

  lemma ParametersRequired(queryExample: string, filterProperties: seq<(string, Value)>)
    ensures Subscript(SearchParameters(queryExample, filterProperties), "required") == Ok(List([Str("search_query")]))
  {
  }

  /** The extractor reads exactly the arguments the session tool declares: one
      `search_database` function whose properties are `search_query` and `mode_filter`. */
  lemma {:induction false} SessionToolMatchesExtractor()
    ensures PropertyNames(SessionSearchTools) == Some(["search_query"] + Keys(SessionFilterSchema))
    ensures var f := Subscript(SessionSearchTools.items[0], "function");
      f.Ok? && Subscript(f.value, "name") == Ok(Str(SearchFunctionName))
  {
    var d := "Search PostgreSQL database for relevant conference sessions based on user query";
    SearchToolsProperties(d, "python AI", SessionFilterProperties);
    SearchToolsName(d, "python AI", SessionFilterProperties);
    SessionFilterKeys();
  }

  /** The extractor reads exactly the arguments the product tool declares: one
      `search_database` function whose properties are `search_query`, `price_filter` and
      `brand_filter`, in the extractor's order. */
  lemma {:induction false} ProductToolMatchesExtractor()
    ensures PropertyNames(ProductSearchTools) == Some(["search_query"] + Keys(ProductFilterSchema))
    ensures var f := Subscript(ProductSearchTools.items[0], "function");
      f.Ok? && Subscript(f.value, "name") == Ok(Str(SearchFunctionName))
  {
    var d := "Search PostgreSQL database for relevant products based on user query";
    SearchToolsProperties(d, "red shoes", ProductFilterProperties);
    SearchToolsName(d, "red shoes", ProductFilterProperties);
    ProductFilterKeys();
  }

  lemma SessionFilterKeys()
    ensures Keys(SessionFilterProperties) == Keys(SessionFilterSchema)
  {
    assert Keys(SessionFilterProperties) == ["mode_filter"];
  }

  lemma ProductFilterKeys()
    ensures Keys(ProductFilterProperties) == Keys(ProductFilterSchema)
  {
    assert Keys(ProductFilterProperties) == ["price_filter", "brand_filter"];
  }

  // ---- Extraction (`extract_search_arguments`) ----

  /** A tool call the extractor reads: a function call named `search_database`. */
  predicate IsSearchCall(c: ToolCall)
  {
    c.kind == "function" && c.call.name == SearchFunctionName
  }

  /** `arg.get("search_query", original_user_query)`. */
  function QueryOf(originalUserQuery: string, args: seq<(string, Value)>): Value
  {
    match Lookup(args, "search_query")
    case Some(q) => q
    case None => Str(originalUserQuery)
  }

  /** The filter record built from one truthy filter argument. */
  function FilterFrom(column: string, obj: Value): Result<Filter>
  {
    match Subscript(obj, "comparison_operator")
    case Err(e) => Err(e)
    case Ok(op) =>
      match Subscript(obj, "value")
      case Err(e) => Err(e)
      case Ok(v) => Ok(Filter(column, op, v))
  }

  /** `if key in arg and arg[key]`: the filter one argument adds, if any. */
  function ArgumentFilter(key: string, column: string, args: seq<(string, Value)>): (r: Result<seq<Filter>>)
    ensures r.Ok? ==> |r.value| <= 1
  {
    match Lookup(args, key)
    case Some(obj) =>
      if Truthy(obj) then
        (match FilterFrom(column, obj)
         case Ok(f) => Ok([f])
         case Err(e) => Err(e))
      else Ok([])
    case None => Ok([])
  }

  /** The filters one `search_database` call adds, in schema order: one per present and truthy
      filter argument. */
  function SchemaFilters(schema: FilterSchema, args: seq<(string, Value)>): (r: Result<seq<Filter>>)
    ensures r.Ok? ==> |r.value| <= |schema|
  {
    if schema == [] then Ok([])
    else
      match ArgumentFilter(schema[0].0, schema[0].1, args)
      case Err(e) => Err(e)
      case Ok(fs) =>
        match SchemaFilters(schema[1..], args)
        case Err(e) => Err(e)
        case Ok(rest) => Ok(fs + rest)
  }

  /** The loop over the tool calls, as a function of how many calls it has seen. */
  function Process(originalUserQuery: string, schema: FilterSchema, calls: seq<ToolCall>): Result<(Value, seq<Filter>)>
  {
    if calls == [] then Ok((Null, []))
    else
      match Process(originalUserQuery, schema, calls[..|calls| - 1])
      case Err(e) => Err(e)
      case Ok(st) =>
        var c := calls[|calls| - 1];
        if !IsSearchCall(c) then Ok(st)
        else
          match SchemaFilters(schema, c.call.arguments)
          case Err(e) => Err(e)
          case Ok(fs) => Ok((QueryOf(originalUserQuery, c.call.arguments), st.1 + fs))
  }

  /** A call that raises ends the loop: later calls do not change the outcome. */
  lemma {:induction false} ProcessErrorSticks(originalUserQuery: string, schema: FilterSchema, calls: seq<ToolCall>, i: nat)
    requires i <= |calls| && Process(originalUserQuery, schema, calls[..i]).Err?
    ensures Process(originalUserQuery, schema, calls) == Process(originalUserQuery, schema, calls[..i])
    decreases |calls| - i
  {
    if i < |calls| {
      assert calls[..i + 1][..i] == calls[..i];
      ProcessErrorSticks(originalUserQuery, schema, calls, i + 1);
    } else {
      assert calls[..i] == calls;
    }
  }

  /** What `extract_search_arguments` returns (or raises). */
  function Extract(originalUserQuery: string, completion: ChatCompletion, schema: FilterSchema): Result<(Value, seq<Filter>)>
  {
    if |completion.choices| == 0 then Err(IndexError)
    else
      var m := completion.choices[0];
      if m.toolCalls.Some? && |m.toolCalls.value| > 0 then Process(originalUserQuery, schema, m.toolCalls.value)
      else if m.content.Some? && m.content.value != "" then Ok((Str(Strip(m.content.value)), []))
      else Ok((Null, []))
  }

  method ExtractSearchArguments(originalUserQuery: string, completion: ChatCompletion, schema: FilterSchema)
    returns (r: Result<(Value, seq<Filter>)>)
    ensures r == Extract(originalUserQuery, completion, schema)
  {
    if |completion.choices| == 0 {
      return Err(IndexError);
    }
    var responseMessage := completion.choices[0];
    var searchQuery := Null;
    var filters: seq<Filter> := [];
    if responseMessage.toolCalls.Some? && |responseMessage.toolCalls.value| > 0 {
      var calls := responseMessage.toolCalls.value;
      for i := 0 to |calls|
        invariant Process(originalUserQuery, schema, calls[..i]) == Ok((searchQuery, filters))
      {
        assert calls[..i + 1][..i] == calls[..i];
        var tool := calls[i];
        if tool.kind != "function" {
          continue;
        }
        if tool.call.name == SearchFunctionName {
          var arg := tool.call.arguments;
          searchQuery := QueryOf(originalUserQuery, arg);
          var added := SchemaFilters(schema, arg);
          if added.Err? {
            ProcessErrorSticks(originalUserQuery, schema, calls, i + 1);
            return Err(added.error);
          }
          filters := filters + added.value;
        }
      }
      assert calls[..|calls|] == calls;
    } else if responseMessage.content.Some? && responseMessage.content.value != "" {
      searchQuery := Str(Strip(responseMessage.content.value));
    }
    return Ok((searchQuery, filters));
  }

  // ---- What the extraction means ----

  /** The `search_database` calls among the tool calls, in order. */
  function SearchCalls(calls: seq<ToolCall>): (r: seq<ToolCall>)
    ensures |r| <= |calls|
    ensures forall c :: c in r ==> IsSearchCall(c) && c in calls
    ensures (forall c :: c in calls ==> !IsSearchCall(c)) ==> r == []
  {
    if calls == [] then []
    else
      var init := SearchCalls(calls[..|calls| - 1]);
      if IsSearchCall(calls[|calls| - 1]) then init + [calls[|calls| - 1]] else init
  }

  /** The filters of the given calls, concatenated in call order; the first failure wins. */
  function AllFilters(schema: FilterSchema, calls: seq<ToolCall>): Result<seq<Filter>>
  {
    if calls == [] then Ok([])
    else
      match AllFilters(schema, calls[..|calls| - 1])
      case Err(e) => Err(e)
      case Ok(fs) =>
        match SchemaFilters(schema, calls[|calls| - 1].call.arguments)
        case Err(e) => Err(e)
        case Ok(more) => Ok(fs + more)
  }

  /** Tool calls that are not `search_database` function calls are ignored; the last
      `search_database` call decides the search query; the filters of all of them accumulate in
      call order; and when there is no such call the result is no query and no filters. */
  lemma {:induction false} ProcessMeaning(originalUserQuery: string, schema: FilterSchema, calls: seq<ToolCall>)
    ensures var sc := SearchCalls(calls);
      Process(originalUserQuery, schema, calls) ==
        match AllFilters(schema, sc)
        case Err(e) => Err(e)
        case Ok(fs) =>
          Ok((if sc == [] then Null else QueryOf(originalUserQuery, sc[|sc| - 1].call.arguments), fs))
  {
    if calls != [] {
      var init := calls[..|calls| - 1];
      ProcessMeaning(originalUserQuery, schema, init);
      var sc := SearchCalls(calls);
      if IsSearchCall(calls[|calls| - 1]) {
        assert sc[..|sc| - 1] == SearchCalls(init);
      }
    }
  }

  /** Tool calls without a `search_database` call give no query and no filters, whatever
      content the message also has. */
  lemma {:induction false} ToolCallsWithoutSearchGiveNothing(originalUserQuery: string, content: Option<string>,
                                                             calls: seq<ToolCall>, schema: FilterSchema)
    requires |calls| > 0 && forall c :: c in calls ==> !IsSearchCall(c)
    ensures Extract(originalUserQuery, ChatCompletion([CompletionMessage(content, Some(calls))]), schema) == Ok((Null, []))
  {
    ProcessMeaning(originalUserQuery, schema, calls);
  }

  /** Without tool calls, a non-empty content is the query, stripped, with no filters; an empty
      or missing content gives no query. */
  lemma {:induction false} ContentFallback(originalUserQuery: string, content: Option<string>,
                                           toolCalls: Option<seq<ToolCall>>, schema: FilterSchema)
    requires toolCalls.None? || toolCalls.value == []
    ensures var r := Extract(originalUserQuery, ChatCompletion([CompletionMessage(content, toolCalls)]), schema);
      r == if content.Some? && content.value != "" then Ok((Str(Strip(content.value)), [])) else Ok((Null, []))
  {
  }

  /** The query falls back to the user's question only when the key is absent: a JSON null
      stays null. */
  lemma {:induction false} QueryFallsBackOnlyWhenAbsent(originalUserQuery: string, args: seq<(string, Value)>)
    ensures !HasKey(args, "search_query") ==> QueryOf(originalUserQuery, args) == Str(originalUserQuery)
    ensures HasKey(args, "search_query") ==>
      exists i :: 0 <= i < |args| && args[i] == ("search_query", QueryOf(originalUserQuery, args))
  {
  }

  /** The session schema: a present, truthy `mode_filter` object gives exactly one filter on
      `mode`, with the object's operator and value; an absent or falsy one gives none. */
  lemma {:induction false} ModeFilter(args: seq<(string, Value)>)
    ensures var m := Lookup(args, "mode_filter");
      (m.None? || !Truthy(m.value)) ==> SchemaFilters(SessionFilterSchema, args) == Ok([])
    ensures var m := Lookup(args, "mode_filter");
      m.Some? && m.value.Dict? && m.value.entries != [] &&
      HasKey(m.value.entries, "comparison_operator") && HasKey(m.value.entries, "value") ==>
        SchemaFilters(SessionFilterSchema, args) ==
          Ok([Filter("mode", Lookup(m.value.entries, "comparison_operator").value, Lookup(m.value.entries, "value").value)])
  {
    assert SessionFilterSchema[0] == ("mode_filter", "mode");
    assert SessionFilterSchema[1..] == [];
    assert SchemaFilters(SessionFilterSchema[1..], args) == Ok([]);
    match ArgumentFilter("mode_filter", "mode", args)
    case Err(e) =>
    case Ok(fs) => assert fs + [] == fs;
  }

  /** The product schema: price comes before brand, and each is added only when present and truthy. */
  lemma {:induction false} PriceBeforeBrand(args: seq<(string, Value)>)
    ensures var p := ArgumentFilter("price_filter", "price", args);
      var b := ArgumentFilter("brand_filter", "brand", args);
      p.Ok? && b.Ok? ==> SchemaFilters(ProductFilterSchema, args) == Ok(p.value + b.value)
    ensures var p := Lookup(args, "price_filter");
      (p.None? || !Truthy(p.value)) ==> ArgumentFilter("price_filter", "price", args) == Ok([])
    ensures var b := Lookup(args, "brand_filter");
      (b.None? || !Truthy(b.value)) ==> ArgumentFilter("brand_filter", "brand", args) == Ok([])
    ensures var p := Lookup(args, "price_filter");
      p.Some? && Truthy(p.value) && FilterFrom("price", p.value).Ok? ==>
        ArgumentFilter("price_filter", "price", args) == Ok([FilterFrom("price", p.value).value])
    ensures var b := Lookup(args, "brand_filter");
      b.Some? && Truthy(b.value) && FilterFrom("brand", b.value).Ok? ==>
        ArgumentFilter("brand_filter", "brand", args) == Ok([FilterFrom("brand", b.value).value])
  {
    assert ProductFilterSchema[0] == ("price_filter", "price");
    assert ProductFilterSchema[1..] == [("brand_filter", "brand")];
    assert ProductFilterSchema[1..][0] == ("brand_filter", "brand");
    assert ProductFilterSchema[1..][1..] == [];
    assert SchemaFilters(ProductFilterSchema[1..][1..], args) == Ok([]);
    var b := ArgumentFilter("brand_filter", "brand", args);
    if b.Ok? {
      assert b.value + [] == b.value;
    }
  }

  /** A filter object missing a key raises `KeyError`, the operator being looked up first. */
  lemma {:induction false} MissingFilterKeyRaises(column: string, entries: seq<(string, Value)>)
    requires !HasKey(entries, "comparison_operator") || !HasKey(entries, "value")
    ensures FilterFrom(column, Dict(entries)) ==
      Err(KeyError(if HasKey(entries, "comparison_operator") then "value" else "comparison_operator"))
  {
  }
}
