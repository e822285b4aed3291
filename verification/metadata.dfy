/**
 * load_csv_file (eval_utils/file_utils.py): the `task_metadata.csv` loader. The header row
 * goes through verify_column_names; every later row goes through verify_row_types, in place,
 * and becomes a dictionary from column name to cell, stored under its `task_id` (the first
 * cell). A later row with the same `task_id` overwrites an earlier one.
 *
 * The file is given as its rows, already split by `csv.reader`; `float` and `int` on a cell
 * are the parameters `parseFloat` and `parseInt`.
 */
module Metadata {
  import opened Wrappers
  import opened Json
  import opened Schema
  import opened Lines
  import opened Loaders

  /** A row as `csv.reader` yields it: every cell a string. */
  function Cells(row: seq<string>): (r: seq<Value>)
    ensures |r| == |row| && forall j :: 0 <= j < |row| ==> r[j] == Str(row[j])
  {
    seq(|row|, j requires 0 <= j < |row| => Str(row[j]))
  }

  /** The (column name, cell) pairs of the first `n` cells of a row, skipping cell 0. */
  function Columns(header: seq<string>, cells: seq<Value>, n: nat): (ps: seq<(string, Value)>)
    requires 1 <= n <= |header| && n <= |cells|
    ensures |ps| == n - 1 && forall j :: 1 <= j < n ==> ps[j - 1] == (header[j], cells[j])
  {
    seq(n - 1, j requires 0 <= j < n - 1 => (header[j + 1], cells[j + 1]))
  }

  /** The attributes dictionary of a converted row: `attributes[column_names[j]] = row[j]` for j >= 1. */
  function RowAttributes(header: seq<string>, cells: seq<Value>): JsonObject
    requires 1 <= |cells| <= |header|
  {
    LastWins(Columns(header, cells, |cells|))
  }

  /**
   * With a header that does not repeat a name, a row's attributes are its cells after the
   * first, each under the name of its column; the `task_id` cell is not among them.
   */
  lemma RowAttributesLookup(header: seq<string>, cells: seq<Value>)
    requires 1 <= |cells| <= |header| && Distinct(header)
    ensures RowAttributes(header, cells).Keys == set j | 1 <= j < |cells| :: header[j]
    ensures forall j :: 1 <= j < |cells| ==> RowAttributes(header, cells)[header[j]] == cells[j]
    ensures header[0] !in RowAttributes(header, cells)
  {
    RowAttributeKeys(header, cells);
    RowAttributeValues(header, cells);
  }

  lemma RowAttributeKeys(header: seq<string>, cells: seq<Value>)
    requires 1 <= |cells| <= |header|
    ensures RowAttributes(header, cells).Keys == set j | 1 <= j < |cells| :: header[j]
  {
    var ps := Columns(header, cells, |cells|);
    LastWinsLookup(ps);
    forall k | k in RowAttributes(header, cells) ensures exists j :: 1 <= j < |cells| && header[j] == k {
      var i :| 0 <= i < |ps| && ps[i].0 == k;
      assert header[i + 1] == k;
    }
    forall k | k in set j | 1 <= j < |cells| :: header[j] ensures k in RowAttributes(header, cells) {
      var j :| 1 <= j < |cells| && header[j] == k;
      assert ps[j - 1].0 == k;
    }
  }

  lemma RowAttributeValues(header: seq<string>, cells: seq<Value>)
    requires 1 <= |cells| <= |header| && Distinct(header)
    ensures forall j :: 1 <= j < |cells| ==>
              header[j] in RowAttributes(header, cells) && RowAttributes(header, cells)[header[j]] == cells[j]
  {
    var ps := Columns(header, cells, |cells|);
    LastWinsLookup(ps);
    forall a | 0 <= a < |ps| ensures LastWith(ps, a) {
      forall b | a < b < |ps| ensures ps[b].0 != ps[a].0 {
        assert ps[b].0 == header[b + 1] && ps[a].0 == header[a + 1];
      }
    }
    forall j | 1 <= j < |cells|
      ensures header[j] in RowAttributes(header, cells) && RowAttributes(header, cells)[header[j]] == cells[j]
    {
      assert ps[j - 1] == (header[j], cells[j]);
    }
  }

  /**
   * A data row (`line` is its position in the file, the header being 0) through
   * verify_row_types and the attribute loop, with the `task_id` it is stored under. The row
   * numbers in the errors are `line + 1`, as the loader reports them.
   */
  function CsvRow(header: seq<string>, row: seq<string>, line: nat,
                  parseFloat: string -> Option<real>, parseInt: string -> Option<int>)
    : (r: Result<(string, JsonObject), LoadError>)
    ensures r.Ok? ==> |row| >= 3 && r.value.0 == row[0]
  {
    match ConvertedRow(Cells(row), parseFloat, parseInt)
    case None => Err(BadRow(line + 1))
    case Some(cells) =>
      if |cells| > |header| then Err(RowLongerThanHeader(line + 1))
      else Ok((row[0], RowAttributes(header, cells)))
  }

  function CsvParser(header: seq<string>, parseFloat: string -> Option<real>, parseInt: string -> Option<int>)
    : (seq<string>, nat) -> Result<(string, JsonObject), LoadError>
  {
    (row: seq<string>, line: nat) => CsvRow(header, row, line, parseFloat, parseInt)
  }

  predicate ColumnsOk(header: seq<string>) {
    RequiredColumns <= ColumnSet(header) && ColumnSet(header) <= RequiredColumns + OptionalColumns
  }

  /** The tasks load_csv_file returns, or None where it raises. */
  function CsvRecords(rows: seq<seq<string>>, parseFloat: string -> Option<real>, parseInt: string -> Option<int>)
    : Option<Records>
  {
    if rows == [] then Some(map[])
    else if !ColumnsOk(rows[0]) then None
    else
      var r := KeyedRecords(rows[1..], CsvParser(rows[0], parseFloat, parseInt));
      if r.Ok? then Some(r.value) else None
  }

  /**
   * load_csv_file: an empty file gives no tasks; a bad header fails with the column sets
   * verify_column_names reports; otherwise the data rows are read like a keyed file.
   */
  method LoadCsvFile(rows: seq<seq<string>>, parseFloat: string -> Option<real>, parseInt: string -> Option<int>)
    returns (r: Result<Records, LoadError>)
    ensures rows == [] ==> r == Ok(map[])
    ensures rows != [] && !ColumnsOk(rows[0]) ==>
              && r.Err? && r.error.BadColumns?
              && (r.error.columns.MissingColumns? ==> r.error.columns.missing == RequiredColumns - ColumnSet(rows[0]))
              && (r.error.columns.ExtraColumns? ==>
                    RequiredColumns <= ColumnSet(rows[0]) &&
                    r.error.columns.extra == ColumnSet(rows[0]) - RequiredColumns - OptionalColumns)
    ensures rows != [] && ColumnsOk(rows[0]) ==> r == KeyedRecords(rows[1..], CsvParser(rows[0], parseFloat, parseInt))
    ensures r.Ok? <==> CsvRecords(rows, parseFloat, parseInt).Some?
    ensures r.Ok? ==> r.value == CsvRecords(rows, parseFloat, parseInt).value
  {
    if rows == [] {
      return Ok(map[]);
    }
    var header := rows[0];
    var columnError := VerifyColumnNames(header);
    if columnError.Some? {
      return Err(BadColumns(columnError.value));
    }
    r := ReadRows(rows, parseFloat, parseInt);
  }

  /** The loop over the data rows, after the header has passed. */
  method ReadRows(rows: seq<seq<string>>, parseFloat: string -> Option<real>, parseInt: string -> Option<int>)
    returns (r: Result<Records, LoadError>)
    requires rows != []
    ensures r == KeyedRecords(rows[1..], CsvParser(rows[0], parseFloat, parseInt))
  {
    var header := rows[0];
    ghost var data := rows[1..];
    ghost var parse := CsvParser(header, parseFloat, parseInt);
    var tasks: Records := map[];
    ghost var ps: seq<(string, JsonObject)> := [];
    var i := 1;
    while i < |rows|
      invariant 1 <= i <= |rows| && |ps| == i - 1
      invariant DecodedPrefix(data, parse, ps)
      invariant tasks == LastWins(ps)
    {
      var parsed := ReadRow(header, rows[i], i, parseFloat, parseInt);
      assert data[i - 1] == rows[i];
      if parsed.Err? {
        KeyedFails(data, parse, ps);
        return Err(parsed.error);
      }
      var (taskId, attributes) := parsed.value;
      tasks := tasks[taskId := attributes];
      DecodedPrefixSnoc(data, parse, ps, (taskId, attributes));
      ps := ps + [(taskId, attributes)];
      assert ps[..|ps| - 1] == ps[..i - 1];
      i := i + 1;
    }
    KeyedSucceeds(data, parse, ps);
    return Ok(tasks);
  }

  /** One data row: verify_row_types on the row in place, then the attribute loop over its cells. */
  method ReadRow(header: seq<string>, row: seq<string>, line: nat,
                 parseFloat: string -> Option<real>, parseInt: string -> Option<int>)
    returns (r: Result<(string, JsonObject), LoadError>)
    ensures r == CsvRow(header, row, line, parseFloat, parseInt)
  {
    var cells := new Value[|row|](j requires 0 <= j < |row| => Str(row[j]));
    assert cells[..] == Cells(row);
    var ok := VerifyRowTypes(cells, parseFloat, parseInt);
    if !ok {
      return Err(BadRow(line + 1));
    }
    var attributes: JsonObject := map[];
    var j := 1;
    while j < cells.Length
      invariant 1 <= j <= cells.Length
      invariant |header| == 0 ==> j == 1
      invariant |header| > 0 ==> j <= |header| && attributes == LastWins(Columns(header, cells[..], j))
    {
      if j >= |header| {
        return Err(RowLongerThanHeader(line + 1));
      }
      assert Columns(header, cells[..], j + 1)[..j - 1] == Columns(header, cells[..], j);
      attributes := attributes[header[j] := cells[j]];
      j := j + 1;
    }
    return Ok((cells[0].s, attributes));
  }
}
