/** The hybrid searcher, in its two versions (`PostgresSearcher` over the `sessions` table and
    the older one over the `items` table). The database is a value the searcher reads: for each
    branch query it gives the matching ids in rank order, and it maps each id to its row. The
    SQL text is not modelled; what each query means is: the vector branch and the full-text
    branch keep their first 20 ids, and the hybrid query is their reciprocal-rank fusion. */
module Searcher {
  import opened Common
  import opened Items
  import opened Embeddings
  import opened Fusion

  /** A filter record as the query rewriter builds it: `{"column", "comparison_operator", "value"}`. */
  datatype Filter = Filter(column: string, comparisonOperator: Value, value: Value)

  /** A string value is wrapped in single quotes; any other value is left alone. */
  function QuoteValue(v: Value): Value
  {
    if v.Str? then Str("'" + v.s + "'") else v
  }

  function QuoteAll(fs: seq<Filter>): (r: seq<Filter>)
    ensures |r| == |fs|
  {
    seq(|fs|, i requires 0 <= i < |fs| => fs[i].(value := QuoteValue(fs[i].value)))
  }

  /** `f"{column} {comparison_operator} {value}"`. */
  function RenderFilter(f: Filter): string
  {
    f.column + " " + PyStr(f.comparisonOperator) + " " + PyStr(f.value)
  }

  /** The clause of each filter, after its value has been quoted. */
  function Clauses(fs: seq<Filter>): (r: seq<string>)
    ensures |r| == |fs|
  {
    var q := QuoteAll(fs);
    seq(|q|, i requires 0 <= i < |q| => RenderFilter(q[i]))
  }

  /** What `build_filter_clause` returns for the filters as they were before the call. */
  function FilterClauses(filters: Option<seq<Filter>>): (string, string)
  {
    if filters.None? then ("", "")
    else
      var clause := Join(Clauses(filters.value), " AND ");
      if |clause| > 0 then ("WHERE " + clause, "AND " + clause) else ("", "")
  }

  /** `build_filter_clause`: quotes every string value in place in the caller's filter records,
      and returns the `WHERE …` and `AND …` forms of the conjunction. */
  method BuildFilterClause(filters: Option<array<Filter>>) returns (whereClause: string, andClause: string)
    modifies if filters.Some? then {filters.value} else {}
    ensures filters.Some? ==> filters.value[..] == QuoteAll(old(filters.value[..]))
    ensures (whereClause, andClause) == FilterClauses(if filters.Some? then Some(old(filters.value[..])) else None)
  {
    if filters.None? {
      return "", "";
    }
    var a := filters.value;
    ghost var original := a[..];
    var clauses: seq<string> := [];
    var i := 0;
    while i < a.Length
      invariant 0 <= i <= a.Length
      invariant a[..i] == QuoteAll(original)[..i]
      invariant a[i..] == original[i..]
      invariant clauses == Clauses(original)[..i]
    {
      assert a[i] == original[i] by {
        assert a[i..][0] == original[i..][0];
      }
      if a[i].value.Str? {
        a[i] := a[i].(value := Str("'" + a[i].value.s + "'"));
      }
      assert a[i] == QuoteAll(original)[i];
      clauses := clauses + [RenderFilter(a[i])];
      assert a[..i + 1] == a[..i] + [a[i]];
      assert QuoteAll(original)[..i + 1] == QuoteAll(original)[..i] + [QuoteAll(original)[i]];
      assert a[i + 1..] == original[i + 1..] by {
        assert forall k :: i + 1 <= k < a.Length ==> a[k] == a[i..][k - i] == original[i..][k - i];
      }
      i := i + 1;
    }
    assert a[..] == a[..a.Length];
    assert clauses == Clauses(original);
    var clause := Join(clauses, " AND ");
    if |clause| > 0 {
      return "WHERE " + clause, "AND " + clause;
    }
    return "", "";
  }

  lemma JoinKeepsFirst(parts: seq<string>, sep: string)
    requires |parts| > 0
    ensures |Join(parts, sep)| >= |parts[0]|
  {
  }

  /** No filters and an empty filter list give two empty clauses; any non-empty list gives the
      same conjunction of its quoted clauses, once after `WHERE ` and once after `AND `. */
  lemma {:induction false} FilterClausesCases(filters: Option<seq<Filter>>)
    ensures FilterClauses(filters) == ("", "") <==> filters.None? || |filters.value| == 0
    ensures filters.Some? && |filters.value| > 0 ==>
      var clause := Join(Clauses(filters.value), " AND ");
      FilterClauses(filters) == ("WHERE " + clause, "AND " + clause)
  {
    if filters.Some? && |filters.value| > 0 {
      var cs := Clauses(filters.value);
      assert |cs[0]| >= 2;
      JoinKeepsFirst(cs, " AND ");
    }
  }

  /** Quoting touches only string values, keeps every other field, and a string stays a string. */
  lemma QuoteAllEffect(fs: seq<Filter>, i: int)
    requires 0 <= i < |fs|
    ensures QuoteAll(fs)[i].column == fs[i].column
    ensures QuoteAll(fs)[i].comparisonOperator == fs[i].comparisonOperator
    ensures fs[i].value.Str? ==> QuoteAll(fs)[i].value == Str("'" + fs[i].value.s + "'")
    ensures !fs[i].value.Str? ==> QuoteAll(fs)[i].value == fs[i].value
  {
  }

  /** One filter on a string value gives one clause with the value inside single quotes. */
  lemma {:induction false} SingleStringFilter(column: string, op: string, text: string)
    ensures var clause := column + " " + op + " " + ("'" + text + "'");
      FilterClauses(Some([Filter(column, Str(op), Str(text))])) == ("WHERE " + clause, "AND " + clause)
  {
    var fs := [Filter(column, Str(op), Str(text))];
    assert QuoteAll(fs)[0] == Filter(column, Str(op), Str("'" + text + "'"));
    assert RenderFilter(QuoteAll(fs)[0]) == column + " " + op + " " + ("'" + text + "'");
    assert Clauses(fs) == [column + " " + op + " " + ("'" + text + "'")];
  }

  /** A numeric filter value is rendered as it is. */
  lemma {:induction false} NumericFilterExample()
    ensures FilterClauses(Some([Filter("price", Str("<"), Int(30))])) == ("WHERE price < 30", "AND price < 30")
  {
    assert NatToString(3) == "3";
    assert NatToString(30) == "30";
    var fs := [Filter("price", Str("<"), Int(30))];
    assert QuoteAll(fs)[0] == fs[0];
    assert PyStr(Int(30)) == "30";
    assert PyStr(Str("<")) == "<";
    assert RenderFilter(QuoteAll(fs)[0]) == "price < 30";
    assert Clauses(fs) == ["price < 30"];
    assert Join(Clauses(fs), " AND ") == "price < 30";
    assert "WHERE " + "price < 30" == "WHERE price < 30";
    assert "AND " + "price < 30" == "AND price < 30";
  }

  // ---- The database and the three queries ----

  /** One branch query, with the pieces of SQL that vary between calls. */
  datatype BranchQuery =
    | VectorQuery(table: string, embeddingColumn: string, whereClause: string, embedding: seq<PyFloat>)
    | FullTextQuery(table: string, andClause: string, query: Value)

  /** The database as the searcher sees it: each branch query's matching ids in rank order
      (before `LIMIT 20`), and the row of each id. */
  datatype Database<Id, Row> = Database(rank: BranchQuery -> seq<Id>, rows: map<Id, Row>)

  /** Every ranked id is the id of a row of the table. */
  ghost predicate DbValid<Id(!new), Row>(db: Database<Id, Row>)
  {
    forall q: BranchQuery, id: Id :: id in db.rank(q) ==> id in db.rows
  }

  datatype SearchPath = Hybrid | VectorOnly | TextOnly

  /** Which of the three queries `search` runs; no text and no vector is a `ValueError`. */
  function ChoosePath(queryText: Value, queryVector: seq<PyFloat>): (r: Result<SearchPath>)
    ensures r == Ok(Hybrid) <==> queryText != Null && |queryVector| > 0
    ensures r == Ok(VectorOnly) <==> queryText == Null && |queryVector| > 0
    ensures r == Ok(TextOnly) <==> queryText != Null && |queryVector| == 0
    ensures r.Err? <==> queryText == Null && |queryVector| == 0
    ensures r.Err? ==> r.error == ValueError("Both query text and query vector are empty")
  {
    if queryText != Null && |queryVector| > 0 then Ok(Hybrid)
    else if |queryVector| > 0 then Ok(VectorOnly)
    else if queryText != Null then Ok(TextOnly)
    else Err(ValueError("Both query text and query vector are empty"))
  }

  /** The vector branch: the first 20 ids by embedding distance, filtered by the `WHERE` clause. */
  function VectorBranch<Id, Row>(db: Database<Id, Row>, table: string, embeddingColumn: string,
                                 whereClause: string, queryVector: seq<PyFloat>): seq<Id>
  {
    Take(db.rank(VectorQuery(table, embeddingColumn, whereClause, queryVector)), BranchLimit)
  }

  /** The full-text branch: the first 20 ids by text rank, filtered by the `AND` clause. */
  function TextBranch<Id, Row>(db: Database<Id, Row>, table: string, andClause: string, queryText: Value): seq<Id>
  {
    Take(db.rank(FullTextQuery(table, andClause, queryText)), BranchLimit)
  }

  /** The ids the executed query returns, in its row order. */
  function RankedIds<Id(==,!new), Row>(db: Database<Id, Row>, table: string, embeddingColumn: string,
                                       queryText: Value, queryVector: seq<PyFloat>,
                                       clauses: (string, string)): (r: Result<seq<Id>>)
    ensures r.Err? <==> ChoosePath(queryText, queryVector).Err?
    ensures r.Ok? ==> |r.value| <= BranchLimit
  {
    match ChoosePath(queryText, queryVector)
    case Err(e) => Err(e)
    case Ok(Hybrid) =>
      Ok(Fuse(VectorBranch(db, table, embeddingColumn, clauses.0, queryVector),
              TextBranch(db, table, clauses.1, queryText)))
    case Ok(VectorOnly) => Ok(VectorBranch(db, table, embeddingColumn, clauses.0, queryVector))
    case Ok(TextOnly) => Ok(TextBranch(db, table, clauses.1, queryText))
  }

  /** The ids `search` hydrates: `results[:top]`. */
  function SearchIds<Id(==,!new), Row>(db: Database<Id, Row>, table: string, embeddingColumn: string,
                                       queryText: Value, queryVector: seq<PyFloat>, top: int,
                                       filters: Option<seq<Filter>>): Result<seq<Id>>
  {
    match RankedIds(db, table, embeddingColumn, queryText, queryVector, FilterClauses(filters))
    case Err(e) => Err(e)
    case Ok(ids) => Ok(PySliceTo(ids, top))
  }

  /** The row of each id, in order. */
  function Hydrate<Id, Row>(rows: map<Id, Row>, ids: seq<Id>): (r: seq<Row>)
    requires forall k :: 0 <= k < |ids| ==> ids[k] in rows
    ensures |r| == |ids|
  {
    seq(|ids|, k requires 0 <= k < |ids| => rows[ids[k]])
  }

  /** What `search` returns, for the filters as they were before the call. */
  function SearchResult<Id(==,!new), Row>(db: Database<Id, Row>, table: string, embeddingColumn: string,
                                          queryText: Value, queryVector: seq<PyFloat>, top: int,
                                          filters: Option<seq<Filter>>): Result<seq<Row>>
    requires DbValid(db)
  {
    match SearchIds(db, table, embeddingColumn, queryText, queryVector, top, filters)
    case Err(e) => Err(e)
    case Ok(ids) =>
      assert forall k :: 0 <= k < |ids| ==> ids[k] in db.rows by {
        SearchIdsAreRows(db, table, embeddingColumn, queryText, queryVector, top, filters);
      }
      Ok(Hydrate(db.rows, ids))
  }

  /** Every id `search` returns is in the vector branch or in the full-text branch, and hence a row. */
  lemma {:induction false} SearchIdsAreRows<Id(!new), Row>(
    db: Database<Id, Row>, table: string, embeddingColumn: string, queryText: Value,
    queryVector: seq<PyFloat>, top: int, filters: Option<seq<Filter>>)
    requires DbValid(db)
    ensures var r := SearchIds(db, table, embeddingColumn, queryText, queryVector, top, filters);
      r.Ok? ==> forall k :: 0 <= k < |r.value| ==>
        var clauses := FilterClauses(filters);
        (r.value[k] in VectorBranch(db, table, embeddingColumn, clauses.0, queryVector) ||
         r.value[k] in TextBranch(db, table, clauses.1, queryText)) && r.value[k] in db.rows
  {
    var clauses := FilterClauses(filters);
    var v := VectorBranch(db, table, embeddingColumn, clauses.0, queryVector);
    var t := TextBranch(db, table, clauses.1, queryText);
    var vq := VectorQuery(table, embeddingColumn, clauses.0, queryVector);
    var tq := FullTextQuery(table, clauses.1, queryText);
    assert forall id :: id in v ==> id in db.rank(vq);
    assert forall id :: id in t ==> id in db.rank(tq);
    var r := SearchIds(db, table, embeddingColumn, queryText, queryVector, top, filters);
    if r.Ok? {
      var ranked := RankedIds(db, table, embeddingColumn, queryText, queryVector, clauses).value;
      forall k | 0 <= k < |r.value|
        ensures (r.value[k] in v || r.value[k] in t) && r.value[k] in db.rows
      {
        assert r.value[k] == ranked[k];
        assert ranked[k] in ranked;
      }
    }
  }

  /** `search` returns at most `top` rows (when `top` is not negative) and never more than 20. */
  lemma {:induction false} SearchBounded<Id(!new), Row>(
    db: Database<Id, Row>, table: string, embeddingColumn: string, queryText: Value,
    queryVector: seq<PyFloat>, top: int, filters: Option<seq<Filter>>)
    requires DbValid(db)
    ensures var r := SearchResult(db, table, embeddingColumn, queryText, queryVector, top, filters);
      r.Ok? ==> |r.value| <= BranchLimit && (top >= 0 ==> |r.value| <= top)
    ensures SearchResult(db, table, embeddingColumn, queryText, queryVector, top, filters).Err?
        <==> queryText == Null && |queryVector| == 0
  {
  }

  /** With both a text and a vector, the rows returned are the best-fused ones: an id of either
      branch that was left out scores no more than any id that was returned. */
  lemma {:induction false} HybridReturnsTopScores<Id(!new), Row>(
    db: Database<Id, Row>, table: string, embeddingColumn: string, queryText: Value,
    queryVector: seq<PyFloat>, top: int, filters: Option<seq<Filter>>, x: Id, y: Id)
    requires queryText != Null && |queryVector| > 0
    requires var clauses := FilterClauses(filters);
      x in VectorBranch(db, table, embeddingColumn, clauses.0, queryVector) ||
      x in TextBranch(db, table, clauses.1, queryText)
    requires var ids := SearchIds(db, table, embeddingColumn, queryText, queryVector, top, filters);
      ids.Ok? && x !in ids.value && y in ids.value
    ensures var clauses := FilterClauses(filters);
      var v := VectorBranch(db, table, embeddingColumn, clauses.0, queryVector);
      var t := TextBranch(db, table, clauses.1, queryText);
      Score(v, t, y) >= Score(v, t, x)
  {
    var clauses := FilterClauses(filters);
    var v := VectorBranch(db, table, embeddingColumn, clauses.0, queryVector);
    var t := TextBranch(db, table, clauses.1, queryText);
    var fused := Fuse(v, t);
    var ids := SearchIds(db, table, embeddingColumn, queryText, queryVector, top, filters).value;
    assert ids == PySliceTo(fused, top);
    assert ids == fused[..|ids|];
    var i :| 0 <= i < |ids| && ids[i] == y;
    if x in fused {
      var j :| 0 <= j < |fused| && fused[j] == x;
      forall k | 0 <= k < |ids| ensures fused[k] != x {
        assert fused[k] == ids[k];
      }
      assert fused[i] == y;
    } else {
      assert y in fused by {
        assert fused[i] == y;
      }
      FuseIsTopScores(v, t, x, y);
    }
  }

  /** The same rendered filters restrict both branches. */
  lemma {:induction false} FiltersApplyToBothBranches(filters: Option<seq<Filter>>)
    requires filters.Some? && |filters.value| > 0
    ensures FilterClauses(filters).0[6..] == FilterClauses(filters).1[4..]
    ensures FilterClauses(filters).0[..6] == "WHERE " && FilterClauses(filters).1[..4] == "AND "
  {
    FilterClausesCases(filters);
  }

  /** An empty text with no vector is still a text search, not an error: when the full-text
      branch matches nothing, the result is empty. */
  lemma {:induction false} EmptyTextIsNotAnError<Id(!new), Row>(db: Database<Id, Row>, table: string,
                                                                    embeddingColumn: string, top: int)
    requires DbValid(db)
    requires db.rank(FullTextQuery(table, "", Str(""))) == []
    ensures SearchResult(db, table, embeddingColumn, Str(""), [], top, None) == Ok([])
  {
  }

  /** `search`: builds the filter clauses (quoting the caller's filter values in place, even
      when it then raises), runs the chosen query, and hydrates the first `top` ids in order. */
  method SearchRows<Id(==,!new), Row>(db: Database<Id, Row>, table: string, embeddingColumn: string,
                                      queryText: Value, queryVector: seq<PyFloat>, top: int,
                                      filters: Option<array<Filter>>) returns (r: Result<seq<Row>>)
    requires DbValid(db)
    modifies if filters.Some? then {filters.value} else {}
    ensures filters.Some? ==> filters.value[..] == QuoteAll(old(filters.value[..]))
    ensures r == SearchResult(db, table, embeddingColumn, queryText, queryVector, top,
                              if filters.Some? then Some(old(filters.value[..])) else None)
  {
    ghost var before := if filters.Some? then Some(filters.value[..]) else None;
    var whereClause, andClause := BuildFilterClause(filters);
    var path := ChoosePath(queryText, queryVector);
    if path.Err? {
      return Err(path.error);
    }
    var results := RankedIds(db, table, embeddingColumn, queryText, queryVector, (whereClause, andClause));
    var ids := PySliceTo(results.value, top);
    assert SearchIds(db, table, embeddingColumn, queryText, queryVector, top, before) == Ok(ids);
    SearchIdsAreRows(db, table, embeddingColumn, queryText, queryVector, top, before);
    var rowModels := HydrateRows(db.rows, ids);
    return Ok(rowModels);
  }

  /** The hydration loop: one row lookup per id, appended in order. */
  method HydrateRows<Id, Row>(rows: map<Id, Row>, ids: seq<Id>) returns (rowModels: seq<Row>)
    requires forall k :: 0 <= k < |ids| ==> ids[k] in rows
    ensures rowModels == Hydrate(rows, ids)
  {
    rowModels := [];
    for k := 0 to |ids|
      invariant rowModels == Hydrate(rows, ids[..k])
    {
      rowModels := rowModels + [rows[ids[k]]];
    }
    assert ids[..|ids|] == ids;
  }

  // ---- search_and_embed ----

  /** What `search_and_embed` returns, given the outcome of its embedding step (`Ok([])` when
      it did not embed): an embedding failure escapes before `search`; otherwise the text is
      dropped when text search is off. */
  function SearchAndEmbedResult<Id(==,!new), Row>(db: Database<Id, Row>, table: string, embeddingColumn: string,
                                                  vector: Result<seq<PyFloat>>, queryText: Value, top: int,
                                                  enableTextSearch: bool, filters: Option<seq<Filter>>): Result<seq<Row>>
    requires DbValid(db)
  {
    match vector
    case Err(e) => Err(e)
    case Ok(vec) =>
      SearchResult(db, table, embeddingColumn, if enableTextSearch then queryText else Null, vec, top, filters)
  }

  /** The caller's filter records after `search_and_embed`: quoted, unless the embedding step
      failed before `search` was reached. */
  function FiltersAfter(vector: Result<seq<PyFloat>>, filters: seq<Filter>): seq<Filter>
  {
    if vector.Err? then filters else QuoteAll(filters)
  }

  /** The searcher over the `sessions` table (src/backend/fastapi_app). */
  class PostgresSearcher {
    const db: Database<string, SessionItem>
    const embedApi: EmbeddingApi
    const embedDeployment: Option<string>
    const embedModel: string
    const embedDimensions: Option<int>
    const embeddingColumn: string

    constructor (db: Database<string, SessionItem>, embedApi: EmbeddingApi, embedDeployment: Option<string>,
                 embedModel: string, embedDimensions: Option<int>, embeddingColumn: string)
      ensures this.db == db && this.embedApi == embedApi && this.embedDeployment == embedDeployment
      ensures this.embedModel == embedModel && this.embedDimensions == embedDimensions
      ensures this.embeddingColumn == embeddingColumn
    {
      this.db := db;
      this.embedApi := embedApi;
      this.embedDeployment := embedDeployment;
      this.embedModel := embedModel;
      this.embedDimensions := embedDimensions;
      this.embeddingColumn := embeddingColumn;
    }

    /** The embedding step: the query is embedded only when vector search is on and there is a query. */
    function EmbedStep(queryText: Value, enableVectorSearch: bool): (r: Result<seq<PyFloat>>)
      ensures !(enableVectorSearch && queryText != Null) ==> r == Ok([])
      ensures enableVectorSearch && queryText != Null ==>
        r == ComputeTextEmbedding(embedApi, queryText, embedModel, embedDeployment, embedDimensions)
    {
      if enableVectorSearch && queryText != Null then
        ComputeTextEmbedding(embedApi, queryText, embedModel, embedDeployment, embedDimensions)
      else Ok([])
    }

    function Result(queryText: Value, top: int, enableVectorSearch: bool, enableTextSearch: bool,
                    filters: Option<seq<Filter>>): Result<seq<SessionItem>>
      requires DbValid(db)
    {
      SearchAndEmbedResult(db, SessionsTable, embeddingColumn, EmbedStep(queryText, enableVectorSearch),
                           queryText, top, enableTextSearch, filters)
    }

    method Search(queryText: Value, queryVector: seq<PyFloat>, top: int, filters: Option<array<Filter>>)
      returns (r: Result<seq<SessionItem>>)
      requires DbValid(db)
      modifies if filters.Some? then {filters.value} else {}
      ensures filters.Some? ==> filters.value[..] == QuoteAll(old(filters.value[..]))
      ensures r == SearchResult(db, SessionsTable, embeddingColumn, queryText, queryVector, top,
                                if filters.Some? then Some(old(filters.value[..])) else None)
    {
      r := SearchRows(db, SessionsTable, embeddingColumn, queryText, queryVector, top, filters);
    }

    method SearchAndEmbed(queryText: Value, top: int, enableVectorSearch: bool, enableTextSearch: bool,
                          filters: Option<array<Filter>>) returns (r: Result<seq<SessionItem>>)
      requires DbValid(db)
      modifies if filters.Some? then {filters.value} else {}
      ensures filters.Some? ==>
        filters.value[..] == FiltersAfter(EmbedStep(queryText, enableVectorSearch), old(filters.value[..]))
      ensures r == Result(queryText, top, enableVectorSearch, enableTextSearch,
                          if filters.Some? then Some(old(filters.value[..])) else None)
    {
      var vector: seq<PyFloat> := [];
      if enableVectorSearch && queryText != Null {
        var e := ComputeTextEmbedding(embedApi, queryText, embedModel, embedDeployment, embedDimensions);
        if e.Err? {
          return Err(e.error);
        }
        vector := e.value;
      }
      var query := queryText;
      if !enableTextSearch {
        query := Null;
      }
      r := Search(query, vector, top, filters);
    }

    /** With no query, or with both searches off, `search_and_embed` raises `ValueError`. */
    lemma {:induction false} NoQueryOrNoSearchRaises(top: int, queryText: Value, enableVectorSearch: bool,
                                                     enableTextSearch: bool, filters: Option<seq<Filter>>)
      requires DbValid(db)
      requires queryText == Null || (!enableVectorSearch && !enableTextSearch)
      ensures Result(queryText, top, enableVectorSearch, enableTextSearch, filters)
           == Err(ValueError("Both query text and query vector are empty"))
    {
      assert EmbedStep(queryText, enableVectorSearch) == Ok([]);
    }

    /** The embedding API is consulted only when vector search is on and there is a query:
        otherwise the result does not depend on it. */
    lemma {:induction false} EmbedsOnlyWhenNeeded(other: PostgresSearcher, queryText: Value, top: int,
                                                  enableVectorSearch: bool, enableTextSearch: bool,
                                                  filters: Option<seq<Filter>>)
      requires DbValid(db)
      requires other.db == db && other.embeddingColumn == embeddingColumn
      requires !(enableVectorSearch && queryText != Null)
      ensures other.Result(queryText, top, enableVectorSearch, enableTextSearch, filters)
           == Result(queryText, top, enableVectorSearch, enableTextSearch, filters)
    {
      assert EmbedStep(queryText, enableVectorSearch) == Ok([]);
      assert other.EmbedStep(queryText, enableVectorSearch) == Ok([]);
    }

    /** With text search off, only the vector branch runs. */
    lemma {:induction false} TextOffMeansVectorOnly(queryText: Value, top: int, filters: Option<seq<Filter>>)
      requires DbValid(db)
      requires queryText != Null
      requires EmbedStep(queryText, true).Ok? && |EmbedStep(queryText, true).value| > 0
      ensures Result(queryText, top, true, false, filters)
           == SearchResult(db, SessionsTable, embeddingColumn, Null, EmbedStep(queryText, true).value, top, filters)
      ensures ChoosePath(Null, EmbedStep(queryText, true).value) == Ok(VectorOnly)
    {
    }
  }

  /** The searcher over the `items` table (src/fastapi_app): embeds whenever vector search is on. */
  class LegacyPostgresSearcher {
    const db: Database<int, ProductItem>
    const embedApi: EmbeddingApi
    const embedDeployment: Option<string>
    const embedModel: string
    const embedDimensions: int

    constructor (db: Database<int, ProductItem>, embedApi: EmbeddingApi, embedDeployment: Option<string>,
                 embedModel: string, embedDimensions: int)
      ensures this.db == db && this.embedApi == embedApi && this.embedDeployment == embedDeployment
      ensures this.embedModel == embedModel && this.embedDimensions == embedDimensions
    {
      this.db := db;
      this.embedApi := embedApi;
      this.embedDeployment := embedDeployment;
      this.embedModel := embedModel;
      this.embedDimensions := embedDimensions;
    }

    /** The embedding step: the query is embedded whenever vector search is on, even a missing one. */
    function EmbedStep(queryText: Value, enableVectorSearch: bool): (r: Result<seq<PyFloat>>)
      ensures !enableVectorSearch ==> r == Ok([])
      ensures enableVectorSearch ==>
        r == LegacyComputeTextEmbedding(embedApi, queryText, embedModel, embedDeployment, embedDimensions)
    {
      if enableVectorSearch then
        LegacyComputeTextEmbedding(embedApi, queryText, embedModel, embedDeployment, embedDimensions)
      else Ok([])
    }

    function Result(queryText: Value, top: int, enableVectorSearch: bool, enableTextSearch: bool,
                    filters: Option<seq<Filter>>): Result<seq<ProductItem>>
      requires DbValid(db)
    {
      SearchAndEmbedResult(db, ProductsTable, "embedding", EmbedStep(queryText, enableVectorSearch),
                           queryText, top, enableTextSearch, filters)
    }

    method Search(queryText: Value, queryVector: seq<PyFloat>, top: int, filters: Option<array<Filter>>)
      returns (r: Result<seq<ProductItem>>)
      requires DbValid(db)
      modifies if filters.Some? then {filters.value} else {}
      ensures filters.Some? ==> filters.value[..] == QuoteAll(old(filters.value[..]))
      ensures r == SearchResult(db, ProductsTable, "embedding", queryText, queryVector, top,
                                if filters.Some? then Some(old(filters.value[..])) else None)
    {
      r := SearchRows(db, ProductsTable, "embedding", queryText, queryVector, top, filters);
    }

    method SearchAndEmbed(queryText: Value, top: int, enableVectorSearch: bool, enableTextSearch: bool,
                          filters: Option<array<Filter>>) returns (r: Result<seq<ProductItem>>)
      requires DbValid(db)
      modifies if filters.Some? then {filters.value} else {}
      ensures filters.Some? ==>
        filters.value[..] == FiltersAfter(EmbedStep(queryText, enableVectorSearch), old(filters.value[..]))
      ensures r == Result(queryText, top, enableVectorSearch, enableTextSearch,
                          if filters.Some? then Some(old(filters.value[..])) else None)
    {
      var vector: seq<PyFloat> := [];
      if enableVectorSearch {
        var e := LegacyComputeTextEmbedding(embedApi, queryText, embedModel, embedDeployment, embedDimensions);
        if e.Err? {
          return Err(e.error);
        }
        vector := e.value;
      }
      var query := queryText;
      if !enableTextSearch {
        query := Null;
      }
      r := Search(query, vector, top, filters);
    }

    /** Unlike the newer searcher, a missing query with vector search on is embedded, and when
        the embedding comes back non-empty a vector-only search runs instead of raising. */
    lemma {:induction false} MissingQueryStillEmbedded(top: int, enableTextSearch: bool, filters: Option<seq<Filter>>)
      requires DbValid(db)
      requires EmbedStep(Null, true).Ok? && |EmbedStep(Null, true).value| > 0
      ensures Result(Null, top, true, enableTextSearch, filters)
           == SearchResult(db, ProductsTable, "embedding", Null, EmbedStep(Null, true).value, top, filters)
      ensures Result(Null, top, true, enableTextSearch, filters).Ok?
    {
    }

    /** With both searches off, the older searcher raises `ValueError` too. */
    lemma {:induction false} NoSearchRaises(queryText: Value, top: int, filters: Option<seq<Filter>>)
      requires DbValid(db)
      ensures Result(queryText, top, false, false, filters) == Err(ValueError("Both query text and query vector are empty"))
    {
    }
  }
}
