/** The pure half of the test-case generator panel: the column metadata of the
    two target schemas, the rows the processing service returns, and the
    serialiser that turns the table into tab-separated clipboard text. */
module Table {
  import opened Text

  datatype Result<T, E> = Success(value: T) | Failure(error: E)

  /** A column descriptor handed to the data table: its header (`label` in the
      component; `label` is a Dafny keyword), the row key it
      shows, and whether long values wrap. */
  datatype Column = Column(caption: string, fieldName: string, wrapText: bool)

  /** The eight columns of the GUS schema, in display and export order. */
  const GusColumns: seq<Column> := [
    Column("Work ID", "workId", true),
    Column("Test Suite Name", "testSuiteName", true),
    Column("Test Suite Description", "testSuiteDescription", true),
    Column("Test Scenario Name", "testScenarioName", true),
    Column("Test Scenario Details", "testScenarioDetails", true),
    Column("Expected Results", "expectedResults", true),
    Column("Execution Type", "executionType", true),
    Column("Priority", "priority", true)
  ]

  /** The twelve columns of the Narwhale schema, in display and export order. */
  const NarwhaleColumns: seq<Column> := [
    Column("Test Case Name", "testCaseName", true),
    Column("Project", "project", true),
    Column("Owner Full Name", "ownerName", true),
    Column("Owner ID", "ownerId", true),
    Column("Organization", "organization", true),
    Column("Execution Status", "executionStatus", true),
    Column("Planned Execution Date", "executionDate", true),
    Column("BT Release", "btrelease", true),
    Column("GUS Work Item ID", "workId", true),
    Column("Test Case Details", "testCaseDetails", true),
    Column("Detail Steps", "detailSteps", true),
    Column("Expected Result", "expectedResults", true)
  ]

  /** An entry of the schema picker. */
  datatype Choice = Choice(caption: string, value: string)

  const Options: seq<Choice> := [Choice("GUS", "GUS"), Choice("Narwhale", "Narwhale")]

  /** What the panel gives the data table as its columns: a column list, or the
      empty string when no schema is picked. */
  datatype Display = Columns(columns: seq<Column>) | NoColumns

  /** The columns shown for a picker value: GUS for "GUS", Narwhale for
      "Narwhale", and none for anything else, the unset "" included. */
  function DisplayColumn(option: string): (d: Display)
    ensures d == Columns(GusColumns) <==> option == "GUS"
    ensures d == Columns(NarwhaleColumns) <==> option == "Narwhale"
    ensures d == NoColumns <==> option != "GUS" && option != "Narwhale"
  {
    if option == "GUS" then Columns(GusColumns)
    else if option == "Narwhale" then Columns(NarwhaleColumns)
    else NoColumns
  }

  /** The columns the copy action exports: GUS only for "GUS"; any other value,
      the unset "" included, falls back to Narwhale. None of them is `id`. */
  function ExportColumns(option: string): (cols: seq<Column>)
    ensures option == "GUS" ==> cols == GusColumns && |cols| == 8
    ensures option != "GUS" ==> cols == NarwhaleColumns && |cols| == 12
    ensures forall j :: 0 <= j < |cols| ==> cols[j].fieldName != "id"
  {
    if option == "GUS" then GusColumns else NarwhaleColumns
  }

  /** The column metadata as the data table receives it: eight GUS and twelve
      Narwhale columns, every one wrapping its text, and no two columns of one
      schema reading the same row key. */
  lemma ColumnsWellFormed()
    ensures |GusColumns| == 8 && |NarwhaleColumns| == 12
    ensures forall j :: 0 <= j < |GusColumns| ==> GusColumns[j].wrapText
    ensures forall j :: 0 <= j < |NarwhaleColumns| ==> NarwhaleColumns[j].wrapText
    ensures forall j, k :: 0 <= j < k < |GusColumns| ==>
      GusColumns[j].fieldName != GusColumns[k].fieldName
    ensures forall j, k :: 0 <= j < k < |NarwhaleColumns| ==>
      NarwhaleColumns[j].fieldName != NarwhaleColumns[k].fieldName
  {
  }

  /** Every value the picker offers shows columns, and the copy action
      exports exactly the columns the table shows for it. */
  lemma PickerAgrees()
    ensures forall k :: 0 <= k < |Options| ==>
      DisplayColumn(Options[k].value) == Columns(ExportColumns(Options[k].value))
  {
  }

  /** A value held under a row key. `Null` stands for both null and a missing
      key (undefined); `Num` is the position index the panel adds as `id`. */
  datatype Cell = Null | Str(s: string) | Num(n: nat)

  type Row = map<string, Cell>

  /** The values JavaScript's `||` treats as false among those a row can hold. */
  predicate Falsy(v: Cell) {
    v == Null || v == Str("") || v == Num(0)
  }

  /** `row[key]`, undefined when the key is absent. */
  function Lookup(row: Row, key: string): Cell {
    if key in row then row[key] else Null
  }

  /** `value || ''` turned into text: a falsy value becomes the empty string,
      never a placeholder, and a string is copied as it is. */
  function CellText(v: Cell): (t: string)
    ensures t == [] <==> Falsy(v)
    ensures v.Str? ==> t == v.s
    ensures v.Num? ==> forall i :: 0 <= i < |t| ==> IsDigit(t[i])
  {
    match v
    case Null => []
    case Str(s) => s
    case Num(n) => if n == 0 then [] else Decimal(n)
  }

  /** The texts of one row's cells, in column order. */
  function RowCells(row: Row, cols: seq<Column>): seq<string> {
    seq(|cols|, j requires 0 <= j < |cols| => CellText(Lookup(row, cols[j].fieldName)))
  }

  /** One exported line: the row's cells joined by tabs. */
  function RowLine(row: Row, cols: seq<Column>): string {
    Join(RowCells(row, cols), '\t')
  }

  function Lines(table: seq<Row>, cols: seq<Column>): seq<string> {
    seq(|table|, i requires 0 <= i < |table| => RowLine(table[i], cols))
  }

  datatype ExportError = NoData

  /** The clipboard text for a table: refused for an empty table, otherwise the
      row lines joined by newlines. */
  function Export(table: seq<Row>, cols: seq<Column>): (r: Result<string, ExportError>)
    ensures r.Failure? <==> table == []
  {
    if |table| == 0 then Failure(NoData) else Success(Join(Lines(table, cols), '\n'))
  }

  /** No exported cell text of the table contains a tab or a newline. */
  predicate CleanCells(table: seq<Row>, cols: seq<Column>) {
    forall i, j :: 0 <= i < |table| && 0 <= j < |cols| ==>
      var t := CellText(Lookup(table[i], cols[j].fieldName));
      '\t' !in t && '\n' !in t
  }

  /** What a spreadsheet reads back from the clipboard text of a non-empty
      table whose cells hold no tab or newline: one line per row, one more
      field than there are tabs, `|cols|` fields per line, and field `j` of
      line `i` is exactly the text of column `j` of row `i`. */
  lemma ExportGrid(table: seq<Row>, cols: seq<Column>)
    requires table != [] && cols != []
    requires CleanCells(table, cols)
    ensures Export(table, cols).Success?
    ensures var lines := Split(Export(table, cols).value, '\n');
      && |lines| == |table|
      && forall i :: 0 <= i < |lines| ==>
           && Split(lines[i], '\t') == RowCells(table[i], cols)
           && Occurrences(lines[i], '\t') == |cols| - 1
  {
    var lines := Lines(table, cols);
    forall i | 0 <= i < |table|
      ensures '\n' !in lines[i]
      ensures Split(lines[i], '\t') == RowCells(table[i], cols)
    {
      var cells := RowCells(table[i], cols);
      assert forall j :: 0 <= j < |cells| ==>
        cells[j] == CellText(Lookup(table[i], cols[j].fieldName));
      JoinExcludes(cells, '\t', '\n');
      SplitJoin(cells, '\t');
    }
    SplitJoin(lines, '\n');
  }

  /** Cells are taken from the row by column key, so a key that names no
      column has no effect on the exported line. */
  lemma RowLineIgnoresOtherKeys(row: Row, key: string, v: Cell, cols: seq<Column>)
    requires forall j :: 0 <= j < |cols| ==> cols[j].fieldName != key
    ensures RowLine(row[key := v], cols) == RowLine(row, cols)
  {
    assert RowCells(row[key := v], cols) == RowCells(row, cols);
  }

  /** The rows the panel stores for a processing result: one per record, in
      order. Row `i` holds every key of record `i` with its value, plus an `id`
      key; `id` is the index `i` unless the record brings its own `id`, which
      then wins. */
  function Tagged(records: seq<Row>): (rows: seq<Row>)
    ensures |rows| == |records|
    ensures forall i :: 0 <= i < |rows| ==> rows[i].Keys == records[i].Keys + {"id"}
    ensures forall i, k :: 0 <= i < |rows| && k in records[i] ==> rows[i][k] == records[i][k]
    ensures forall i :: 0 <= i < |rows| && "id" !in records[i] ==> rows[i]["id"] == Num(i)
  {
    seq(|records|, i requires 0 <= i < |records| => map["id" := Num(i)] + records[i])
  }

  /** The added `id` never reaches the clipboard: exporting the stored rows
      gives the same text as exporting the records the service returned. */
  lemma TaggingNotExported(records: seq<Row>, cols: seq<Column>)
    requires forall j :: 0 <= j < |cols| ==> cols[j].fieldName != "id"
    ensures Export(Tagged(records), cols) == Export(records, cols)
  {
    var rows := Tagged(records);
    forall i | 0 <= i < |records|
      ensures RowLine(rows[i], cols) == RowLine(records[i], cols)
    {
      forall j | 0 <= j < |cols|
        ensures Lookup(rows[i], cols[j].fieldName) == Lookup(records[i], cols[j].fieldName)
      {
      }
      assert RowCells(rows[i], cols) == RowCells(records[i], cols);
    }
    assert Lines(rows, cols) == Lines(records, cols);
  }

  /** A one-row table exports as that row's line alone. */
  lemma ExportOneRow(row: Row, cols: seq<Column>)
    ensures Export([row], cols) == Success(RowLine(row, cols))
  {
  }

  /** Two parts join as the first, the separator, then the second. */
  lemma JoinTwo(a: string, b: string, sep: char)
    ensures Join([a, b], sep) == a + [sep] + b
  {
    assert [a, b][1..] == [b];
  }

  /** Worked case: a row with both keys exports as its two values split by a tab. */
  lemma ExportFullRowExample()
    ensures Export([map["a" := Str("1"), "b" := Str("2")]],
                   [Column("A", "a", true), Column("B", "b", true)]) == Success("1\t2")
  {
    var row: Row := map["a" := Str("1"), "b" := Str("2")];
    var cols := [Column("A", "a", true), Column("B", "b", true)];
    ExportOneRow(row, cols);
    assert Lookup(row, "a") == Str("1") && Lookup(row, "b") == Str("2");
    var cells := RowCells(row, cols);
    assert |cells| == 2 && cells[0] == "1" && cells[1] == "2";
    assert cells == ["1", "2"];
    JoinTwo("1", "2", '\t');
    assert "1" + ['\t'] + "2" == "1\t2";
  }

  /** Worked case: a missing key exports as an empty field, not as "undefined". */
  lemma ExportMissingKeyExample()
    ensures Export([map["a" := Str("1")]],
                   [Column("A", "a", true), Column("B", "b", true)]) == Success("1\t")
  {
    var row: Row := map["a" := Str("1")];
    var cols := [Column("A", "a", true), Column("B", "b", true)];
    ExportOneRow(row, cols);
    assert Lookup(row, "a") == Str("1") && Lookup(row, "b") == Null;
    var cells := RowCells(row, cols);
    assert |cells| == 2 && cells[0] == "1" && cells[1] == "";
    assert cells == ["1", ""];
    JoinTwo("1", "", '\t');
    assert "1" + ['\t'] + "" == "1\t";
  }
}
