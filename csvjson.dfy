/** The one-off converter of the seed data (convert_csv_json.py): every data row of the CSV file
    becomes a record keyed by the header, each cell trimmed and read as a list, a boolean, an
    integer, a float or left a string, and the `is_open` column dropped. Reading the CSV text and
    writing the JSON file are not modelled: the rows come in already split into cells. */
module CsvJson {
  import opened Common
  import opened CsvCells

  /** The record after the first `n` columns of the header: each column that has a cell in the
      row is set to the value `read` gives that cell; a later column with the same name
      overwrites. */
  function Record(header: seq<string>, row: seq<string>, n: nat, read: string -> Value): map<string, Value>
    requires n <= |header|
  {
    if n == 0 then map[]
    else
      var item := Record(header, row, n - 1, read);
      if n - 1 < |row| then item[header[n - 1] := read(row[n - 1])] else item
  }

  /** How the script reads a cell: the classification chain with the two parsers. */
  function CellReader(jsonLoads: Parser, literalEval: Parser): string -> Value
  {
    c => Classify(c, jsonLoads, literalEval)
  }

  /** One output record: the row's record without `is_open`, which every row must have. */
  function ConvertRow(header: seq<string>, row: seq<string>, read: string -> Value): (r: Result<map<string, Value>>)
    ensures r.Ok? ==> "is_open" !in r.value
    ensures r.Err? ==> r.error == KeyError("is_open")
  {
    var item := Record(header, row, |header|, read);
    if "is_open" in item then Ok(item - {"is_open"}) else Err(KeyError("is_open"))
  }

  /** All data rows in order; the first row without `is_open` ends the script. */
  function ConvertAll(header: seq<string>, data: seq<seq<string>>, read: string -> Value)
    : (r: Result<seq<map<string, Value>>>)
    ensures r.Ok? ==> |r.value| == |data| && forall k :: 0 <= k < |data| ==> "is_open" !in r.value[k]
    ensures r.Err? ==> r.error == KeyError("is_open")
  {
    if data == [] then Ok([])
    else
      match ConvertAll(header, data[..|data| - 1], read)
      case Err(e) => Err(e)
      case Ok(records) =>
        match ConvertRow(header, data[|data| - 1], read)
        case Err(e) => Err(e)
        case Ok(record) => Ok(records + [record])
  }

  /** The script with a given cell reader: the first row is the header (an empty file has none,
      and `next` raises `StopIteration`), and every further row is converted. The script itself
      is `Convert(rows, CellReader(jsonLoads, literalEval))`. */
  function Convert(rows: seq<seq<string>>, read: string -> Value): (r: Result<seq<map<string, Value>>>)
    ensures r == Err(StopIteration) <==> rows == []
    ensures r.Err? && rows != [] ==> r.error == KeyError("is_open")
    ensures r.Ok? ==> |r.value| == |rows| - 1
  {
    if rows == [] then Err(StopIteration) else ConvertAll(rows[0], rows[1..], read)
  }

  /** The script's loops: over the data rows, and for each over the header's columns. */
  method ConvertCsv(rows: seq<seq<string>>, read: string -> Value) returns (r: Result<seq<map<string, Value>>>)
    ensures r == Convert(rows, read)
  {
    if rows == [] {
      return Err(StopIteration);
    }
    var header := rows[0];
    var data := rows[1..];
    var jsonData: seq<map<string, Value>> := [];
    for k := 0 to |data|
      invariant ConvertAll(header, data[..k], read) == Ok(jsonData)
    {
      assert data[..k + 1][..k] == data[..k];
      var item := RowRecord(header, data[k], read);
      if "is_open" !in item {
        FirstErrorStops(header, data, k + 1, read);
        return Err(KeyError("is_open"));
      }
      item := item - {"is_open"};
      jsonData := jsonData + [item];
    }
    assert data[..|data|] == data;
    r := Ok(jsonData);
  }

  /** The inner loop: each header column that has a cell in the row is set to the cell's value. */
  method RowRecord(header: seq<string>, row: seq<string>, read: string -> Value) returns (item: map<string, Value>)
    ensures item == Record(header, row, |header|, read)
  {
    item := map[];
    for i := 0 to |header|
      invariant item == Record(header, row, i, read)
    {
      if i < |row| {
        item := item[header[i] := read(row[i])];
      }
    }
  }

  // ---- What the conversion promises ----

  /** The keys of a record are the header columns the row has cells for. */
  lemma {:induction false} RecordKeys(header: seq<string>, row: seq<string>, n: nat, read: string -> Value)
    requires n <= |header|
    ensures forall key :: key in Record(header, row, n, read) <==>
      exists i :: 0 <= i < n && i < |row| && header[i] == key
  {
    if n > 0 {
      RecordKeys(header, row, n - 1, read);
    }
  }

  /** With distinct column names, each column that has a cell holds that cell's value. */
  lemma {:induction false} RecordValues(header: seq<string>, row: seq<string>, n: nat, read: string -> Value)
    requires n <= |header|
    requires Distinct(header)
    ensures forall i :: 0 <= i < n && i < |row| ==>
      header[i] in Record(header, row, n, read) && Record(header, row, n, read)[header[i]] == read(row[i])
  {
    if n > 0 {
      RecordValues(header, row, n - 1, read);
    }
  }

  /** With distinct column names, every converted column other than `is_open` holds the
      classification of its cell. */
  lemma {:induction false} RowValues(header: seq<string>, row: seq<string>, jsonLoads: Parser, literalEval: Parser,
                                     i: nat)
    requires Distinct(header)
    requires i < |header| && i < |row| && header[i] != "is_open"
    requires ConvertRow(header, row, CellReader(jsonLoads, literalEval)).Ok?
    ensures header[i] in ConvertRow(header, row, CellReader(jsonLoads, literalEval)).value
    ensures ConvertRow(header, row, CellReader(jsonLoads, literalEval)).value[header[i]] ==
            Classify(row[i], jsonLoads, literalEval)
  {
    RecordValues(header, row, |header|, CellReader(jsonLoads, literalEval));
  }

  /** Cells beyond the header are ignored. */
  lemma {:induction false} ExtraCellsIgnored(header: seq<string>, row: seq<string>, extra: seq<string>, n: nat,
                                             read: string -> Value)
    requires n <= |header| <= |row|
    ensures Record(header, row + extra, n, read) == Record(header, row, n, read)
  {
    if n > 0 {
      ExtraCellsIgnored(header, row, extra, n - 1, read);
      assert (row + extra)[n - 1] == row[n - 1];
    }
  }

  /** A row converts exactly when its cells reach the `is_open` column, and the record never
      keeps that column. */
  lemma {:induction false} IsOpenRemoved(header: seq<string>, row: seq<string>, read: string -> Value)
    ensures ConvertRow(header, row, read).Ok? <==> exists i :: 0 <= i < |header| && i < |row| && header[i] == "is_open"
    ensures ConvertRow(header, row, read).Err? ==> ConvertRow(header, row, read).error == KeyError("is_open")
    ensures ConvertRow(header, row, read).Ok? ==> "is_open" !in ConvertRow(header, row, read).value
  {
    RecordKeys(header, row, |header|, read);
  }

  /** The first row that fails ends the conversion: its error is the script's. */
  lemma {:induction false} FirstErrorStops(header: seq<string>, data: seq<seq<string>>, k: nat, read: string -> Value)
    requires k <= |data|
    requires ConvertAll(header, data[..k], read).Err?
    ensures ConvertAll(header, data, read) == ConvertAll(header, data[..k], read)
    decreases |data| - k
  {
    if k < |data| {
      var init := data[..|data| - 1];
      assert init[..k] == data[..k];
      FirstErrorStops(header, init, k, read);
    } else {
      assert data[..k] == data;
    }
  }

  /** One record per data row, in order, each the row's conversion; the script fails exactly
      when some row fails. */
  lemma {:induction false} OneRecordPerRow(header: seq<string>, data: seq<seq<string>>, read: string -> Value)
    ensures var r := ConvertAll(header, data, read);
      r.Ok? <==> forall k :: 0 <= k < |data| ==> ConvertRow(header, data[k], read).Ok?
    ensures var r := ConvertAll(header, data, read);
      r.Ok? ==> (|r.value| == |data| &&
                 forall k :: 0 <= k < |data| ==> r.value[k] == ConvertRow(header, data[k], read).value)
  {
    if data != [] {
      var init := data[..|data| - 1];
      OneRecordPerRow(header, init, read);
      assert forall k :: 0 <= k < |init| ==> init[k] == data[k];
    }
  }
}
