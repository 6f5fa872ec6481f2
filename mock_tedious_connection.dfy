/**
  The mock connection used in mock mode: it records the last transaction
  action and, for a request, calls the mock-data callback and turns the plain
  row objects it returns into driver rows.
 */
module MockTediousConnection {
  import opened Host

  /** The driver row for one plain row object: one cell
      `{ metadata: { colName: key }, value }` per property, in enumeration order. */
  function CellsOf(r: RowObject): (row: Row)
    ensures |row| == |r|
    ensures forall i :: 0 <= i < |r| ==> row[i] == Cell(r[i].key, r[i].value)
  {
    seq(|r|, i requires 0 <= i < |r| => Cell(r[i].key, r[i].value))
  }

  /** The rows a request emits for the data: row i carries the cells of data
      row i and nothing else. */
  function Emissions(data: seq<RowObject>): (rows: seq<Row>)
    ensures |rows| == |data|
    ensures forall i :: 0 <= i < |data| ==> rows[i] == CellsOf(data[i])
  {
    seq(|data|, i requires 0 <= i < |data| => CellsOf(data[i]))
  }

  /** The cells of several plain row objects, one after the other. */
  function AllCells(data: seq<RowObject>): Row
  {
    if data == [] then [] else AllCells(data[..|data| - 1]) + CellsOf(data[|data| - 1])
  }

  /** The rows emitted by `execSql` as the code is written: the buffer `row`
      is created once, before the loop, and never emptied, so emission i
      carries the cells of data rows 0 to i. */
  function EmissionsAsWritten(data: seq<RowObject>): (rows: seq<Row>)
    ensures |rows| == |data|
  {
    seq(|data|, i requires 0 <= i < |data| => AllCells(data[..i + 1]))
  }

  /** Several plain row objects' properties, one after the other. */
  function Flatten(data: seq<RowObject>): RowObject
  {
    if data == [] then [] else Flatten(data[..|data| - 1]) + data[|data| - 1]
  }

  /** The cells of several rows are the cells of their flattened properties,
      so each as-written emission is the driver row of one (longer) object. */
  lemma {:induction false} AllCellsFlatten(data: seq<RowObject>)
    ensures AllCells(data) == CellsOf(Flatten(data))
  {
    if data != [] {
      var init := data[..|data| - 1];
      AllCellsFlatten(init);
      var a, b := Flatten(init), data[|data| - 1];
      assert CellsOf(a + b) == CellsOf(a) + CellsOf(b);
    }
  }

  /** As written, each emission is the previous one followed by the next
      row's cells. */
  lemma BufferGrowsByEachRow(data: seq<RowObject>, i: nat)
    requires 0 < i < |data|
    ensures EmissionsAsWritten(data)[i] == EmissionsAsWritten(data)[i - 1] + CellsOf(data[i])
  {
    assert data[..i + 1][..i] == data[..i];
  }

  /** Two rows with different columns: as written, the second emission also
      carries the first row's cell, where each emission should carry only
      its own row. */
  lemma RowBufferNeverReset()
    ensures var data := [[Property("col1", Num(1))], [Property("col2", Num(2))]];
      EmissionsAsWritten(data)[1] == [Cell("col1", Num(1)), Cell("col2", Num(2))] &&
      Emissions(data)[1] == [Cell("col2", Num(2))] &&
      EmissionsAsWritten(data) != Emissions(data)
  {
    var data := [[Property("col1", Num(1))], [Property("col2", Num(2))]];
    assert data[..2] == data && data[..1] == [data[0]] && data[..0] == [];
    assert AllCells(data[..1]) == [Cell("col1", Num(1))];
    assert EmissionsAsWritten(data)[1] == [Cell("col1", Num(1)), Cell("col2", Num(2))];
    assert |EmissionsAsWritten(data)[1]| != |Emissions(data)[1]|;
  }

  /** `MockTediousConnection`: stands in for a driver connection in mock mode. */
  class MockConnection {
    var lastTransactionAction: string

    constructor ()
      ensures lastTransactionAction == "none"
    {
      lastTransactionAction := "none";
    }

    /** `beginTransaction(callback)`: records "begin" and calls back once with no error. */
    method BeginTransaction() returns (err: Option<Error>)
      modifies this
      ensures lastTransactionAction == "begin" && err == None
    {
      lastTransactionAction := "begin";
      err := None;
    }

    /** `saveTransaction(callback)`: records "save" and calls back once with no error. */
    method SaveTransaction() returns (err: Option<Error>)
      modifies this
      ensures lastTransactionAction == "save" && err == None
    {
      lastTransactionAction := "save";
      err := None;
    }

    /** `commitTransaction(callback)`: records "commit" and calls back once with no error. */
    method CommitTransaction() returns (err: Option<Error>)
      modifies this
      ensures lastTransactionAction == "commit" && err == None
    {
      lastTransactionAction := "commit";
      err := None;
    }

    /** `rollbackTransaction(callback)`: records "rollback" and calls back once with no error. */
    method RollbackTransaction() returns (err: Option<Error>)
      modifies this
      ensures lastTransactionAction == "rollback" && err == None
    {
      lastTransactionAction := "rollback";
      err := None;
    }

    /** `execSql(request)`: calls the mock callback with the unit's SQL and
        parameter table, emits one row per data row, then completes with the
        error (if any) and a row count of 0. Null or undefined data emits
        nothing; data that is not an array, or a callback that throws,
        completes with that error. */
    method ExecSql(callback: MockCallback, sql: Option<string>, parameters: map<string, Parameter>)
      returns (emitted: seq<Row>, error: Option<Error>, rowCount: int)
      ensures rowCount == 0
      ensures match callback(sql, parameters)
        case NoData => emitted == [] && error == None
        case Rows(data) => emitted == Emissions(data) && error == None
        case NotRows(_) => emitted == [] && error == Some(MockDataNotArray)
        case Throws(e) => emitted == [] && error == Some(e)
    {
      rowCount := 0;
      emitted := [];
      error := None;
      var data := callback(sql, parameters);
      match data {
        case NoData =>
        case Rows(rows) =>
          var i := 0;
          while i < |rows|
            invariant 0 <= i <= |rows|
            invariant emitted == Emissions(rows[..i])
          {
            var row: Row := [];
            var j := 0;
            while j < |rows[i]|
              invariant 0 <= j <= |rows[i]|
              invariant row == CellsOf(rows[i][..j])
            {
              row := row + [Cell(rows[i][j].key, rows[i][j].value)];
              j := j + 1;
            }
            assert rows[i][..j] == rows[i];
            emitted := emitted + [row];
            i := i + 1;
          }
          assert rows[..i] == rows;
        case NotRows(_) =>
          error := Some(MockDataNotArray);
        case Throws(e) =>
          error := Some(e);
      }
    }

    /** `callProcedure(request)`: exactly `execSql(request)`. */
    method CallProcedure(callback: MockCallback, sql: Option<string>, parameters: map<string, Parameter>)
      returns (emitted: seq<Row>, error: Option<Error>, rowCount: int)
      ensures rowCount == 0
      ensures match callback(sql, parameters)
        case NoData => emitted == [] && error == None
        case Rows(data) => emitted == Emissions(data) && error == None
        case NotRows(_) => emitted == [] && error == Some(MockDataNotArray)
        case Throws(e) => emitted == [] && error == Some(e)
    {
      emitted, error, rowCount := ExecSql(callback, sql, parameters);
    }
  }
}
