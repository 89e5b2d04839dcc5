/**
 * `StagedStatement`: a statement that joins a temporary staging table. The
 * caller fills a vector of staged parameter sets; each `exec` numbers them
 * 0, 1, 2, ..., empties the staging table, inserts them all as one
 * parameter array, and executes the main statement.
 */
module StagedStatements {
  import opened Text
  import opened Driver
  import opened Values
  import opened Statements
  import opened Vectors
  import opened TypedStatements
  import opened Connections
  import opened Tables
  import opened CreateTables

  /** One row of the staging table: its sequence index and the caller's parameters. */
  datatype StagedRow<S> = StagedRow(first: int, second: S)

  /** The largest size an `int32_t` can give `resizeStagedParams`, plus one. */
  const INT32_LIMIT: int := 0x8000_0000

  function DeleteFromText(table: string): string
  {
    "DELETE FROM " + table
  }

  /** `deleteFrom`: the statement that empties the staging table. */
  method DeleteFrom(table: string) returns (stmt: string)
    ensures stmt == DeleteFromText(table)
  {
    stmt := "DELETE FROM ";
    stmt := stmt + table;
  }

  /** With no key, the table's DELETE text and the staging one agree. */
  lemma DeleteFromIsUnkeyedDelete(table: string, names: seq<string>)
    ensures DeleteFromText(table) == DeleteText(table, names, [])
  {
  }

  /**
   * `insertInto`: the staging INSERT, naming the columns in order with one
   * placeholder each and no terminating semicolon; the same text the table
   * builder produces.
   */
  method InsertInto(table: string, names: seq<string>) returns (stmt: string)
    ensures stmt == InsertText(table, names)
  {
    stmt := "INSERT INTO ";
    stmt := stmt + table;
    stmt := stmt + " (";
    ghost var head := stmt;
    var column := 0;
    while column != |names|
      invariant 0 <= column <= |names|
      invariant stmt == head + Join(names[..column], ", ")
    {
      JoinSnoc(names, ", ", column);
      if column != 0 {
        stmt := stmt + ", ";
      }
      stmt := stmt + names[column];
      column := column + 1;
    }
    assert names[..column] == names;
    stmt := stmt + ") VALUES (";
    ghost var values := stmt;
    ghost var marks := Repeat("?", |names|);
    column := 0;
    while column != |names|
      invariant 0 <= column <= |names|
      invariant stmt == values + Join(marks[..column], ", ")
    {
      JoinSnoc(marks, ", ", column);
      if column != 0 {
        stmt := stmt + ", ";
      }
      stmt := stmt + "?";
      column := column + 1;
    }
    assert marks[..column] == marks;
    stmt := stmt + ")";
  }

  /** An empty column list still yields a well-formed, if empty, column and value list. */
  lemma InsertIntoNoColumns(table: string)
    ensures InsertText(table, []) == "INSERT INTO " + table + " () VALUES ()"
  {
  }

  /** The rows after numbering: row i carries index i and keeps its parameters. */
  function Stamped<S>(rows: seq<StagedRow<S>>): (r: seq<StagedRow<S>>)
    ensures |r| == |rows|
    ensures forall i :: 0 <= i < |rows| ==> r[i].first == i && r[i].second == rows[i].second
  {
    seq(|rows|, i requires 0 <= i < |rows| => StagedRow(i, rows[i].second))
  }

  /** Numbering twice is numbering once, so `exec` can be repeated on the same rows. */
  lemma StampedIdempotent<S>(rows: seq<StagedRow<S>>)
    ensures Stamped(Stamped(rows)) == Stamped(rows)
  {
  }

  /** The column types of the staging table: the INT index, then the staged parameters. */
  function StagingTypes(payload: seq<ValueType>): seq<ValueType>
  {
    [Int32] + payload
  }

  /** The staging table can be created: every staged parameter has a column type, and there is a name for every column. */
  predicate Stageable(names: seq<string>, payload: seq<ValueType>)
  {
    |payload| < |names| && forall i :: 0 <= i < |payload| ==> ColumnType(payload[i]).Some?
  }

  lemma StageableTypes(names: seq<string>, payload: seq<ValueType>)
    requires Stageable(names, payload)
    ensures |StagingTypes(payload)| <= |names|
    ensures forall i :: 0 <= i < |StagingTypes(payload)| ==> ColumnType(StagingTypes(payload)[i]).Some?
  {
    var types := StagingTypes(payload);
    forall i | 0 <= i < |types|
      ensures ColumnType(types[i]).Some?
    {
      if i > 0 {
        assert types[i] == payload[i - 1];
      }
    }
  }

  /** The flags of the staging table: dropped if present, temporary, keyed by the index column. */
  const STAGING_FLAGS: bv32 := DROP_TABLE_IF_EXISTS | TEMPORARY_TABLE | FIRST_COLUMN_IS_PRIMARY_KEY

  /** The calls `exec` makes: clear the staging table, insert the rows (binding them first if needed), run the main statement. */
  function StagedExecCalls(deleteHandle: nat, insertHandle: nat, mainHandle: nat, elemSize: nat, count: nat, rebind: bool): seq<Call>
  {
    ExecCalls(deleteHandle)
    + ((if rebind then ParamArrayCalls(insertHandle, elemSize, count) else []) + ExecCalls(insertHandle))
    + ExecCalls(mainHandle)
  }

  /** Clearing comes first, the main statement last, and the array binding only ever sits right before the insert. */
  lemma StagedExecOrder(d: nat, i: nat, m: nat, elemSize: nat, count: nat, rebind: bool)
    ensures var cs := StagedExecCalls(d, i, m, elemSize, count, rebind);
      var n := |cs|;
      n == (if rebind then 8 else 6)
      && cs[0] == CloseCursor(d) && cs[1] == Execute(d)
      && cs[n - 4] == CloseCursor(i) && cs[n - 3] == Execute(i)
      && cs[n - 2] == CloseCursor(m) && cs[n - 1] == Execute(m)
      && (rebind ==> cs[2..4] == ParamArrayCalls(i, elemSize, count))
  {
  }

  /** Clearing, then inserting if that went through, then the main statement if that did too, is a run of `exec`'s calls. */
  lemma StagedExecRan(a: seq<Event>, b: seq<Event>, c: seq<Event>, d: seq<Event>, dh: nat, ih: nat, mh: nat,
                      elemSize: nat, count: nat, rebind: bool, cleared: bool, inserted: bool, ok: bool)
    requires Ran(a, b, ExecCalls(dh), cleared)
    requires cleared ==> Ran(b, c, (if rebind then ParamArrayCalls(ih, elemSize, count) else []) + ExecCalls(ih), inserted)
    requires !cleared ==> c == b && !inserted
    requires inserted ==> Ran(c, d, ExecCalls(mh), ok)
    requires !inserted ==> d == c && !ok
    ensures Ran(a, d, StagedExecCalls(dh, ih, mh, elemSize, count, rebind), ok)
  {
    var insert := (if rebind then ParamArrayCalls(ih, elemSize, count) else []) + ExecCalls(ih);
    assert StagedExecCalls(dh, ih, mh, elemSize, count, rebind) == (ExecCalls(dh) + insert) + ExecCalls(mh);
    if !cleared {
      RanFailedExtends(a, d, ExecCalls(dh), insert);
      RanFailedExtends(a, d, ExecCalls(dh) + insert, ExecCalls(mh));
    } else {
      AppendedThenRan(a, b, c, ExecCalls(dh), insert, inserted);
      if inserted {
        AppendedThenRan(a, c, d, ExecCalls(dh) + insert, ExecCalls(mh), ok);
      } else {
        RanFailedExtends(a, d, ExecCalls(dh) + insert, ExecCalls(mh));
      }
    }
  }

  /** The calls that prepare the staging DELETE, the staging INSERT and the main statement from their texts, starting with handle `h`. */
  function PrepareCalls(dbc: nat, h: nat, deleteText: string, insertText: string,
                        sql: string, params: seq<Field>, cols: seq<Field>): seq<Call>
    requires forall i :: 0 <= i < |params| ==> Bindable(params[i].ty)
    requires forall i :: 0 <= i < |cols| ==> Bindable(cols[i].ty)
  {
    OpenCalls(dbc, h, deleteText)
    + OpenCalls(dbc, h + 1, insertText)
    + (OpenCalls(dbc, h + 2, sql) + ParamCalls(h + 2, 0, params) + ColCalls(h + 2, 0, cols))
  }

  /** The calls that create the staging table, starting with handle `h`. */
  function StagingCalls(dbc: nat, h: nat, staging: string, names: seq<string>, payload: seq<ValueType>): seq<Call>
    requires Stageable(names, payload)
  {
    StageableTypes(names, payload);
    CreateCalls(dbc, h, staging, names, StagingTypes(payload), true, true, true)
  }

  /** The calls the constructor makes, starting with handle `h`: the staging table first, then the three statements. */
  function StagedOpenCalls(dbc: nat, h: nat, staging: string, names: seq<string>, payload: seq<ValueType>,
                           sql: string, params: seq<Field>, cols: seq<Field>): seq<Call>
    requires Stageable(names, payload)
    requires forall i :: 0 <= i < |params| ==> Bindable(params[i].ty)
    requires forall i :: 0 <= i < |cols| ==> Bindable(cols[i].ty)
  {
    StagingCalls(dbc, h, staging, names, payload)
    + PrepareCalls(dbc, h + 2, DeleteFromText(staging), InsertText(staging, names), sql, params, cols)
  }

  /** Creating the staging table and then, if that went through, preparing the statements is a run of the constructor's calls. */
  lemma StagedOpenRan(a: seq<Event>, b: seq<Event>, c: seq<Event>, dbc: nat, h: nat, staging: string, names: seq<string>,
                      payload: seq<ValueType>, sql: string, params: seq<Field>, cols: seq<Field>, created: bool, prepared: bool)
    requires Stageable(names, payload)
    requires forall i :: 0 <= i < |params| ==> Bindable(params[i].ty)
    requires forall i :: 0 <= i < |cols| ==> Bindable(cols[i].ty)
    requires Ran(a, b, StagingCalls(dbc, h, staging, names, payload), created)
    requires created ==> Ran(b, c, PrepareCalls(dbc, h + 2, DeleteFromText(staging), InsertText(staging, names), sql, params, cols), prepared)
    requires !created ==> c == b && !prepared
    ensures Ran(a, c, StagedOpenCalls(dbc, h, staging, names, payload, sql, params, cols), prepared)
  {
    var create := StagingCalls(dbc, h, staging, names, payload);
    var prepare := PrepareCalls(dbc, h + 2, DeleteFromText(staging), InsertText(staging, names), sql, params, cols);
    assert StagedOpenCalls(dbc, h, staging, names, payload, sql, params, cols) == create + prepare;
    if created {
      AppendedThenRan(a, b, c, create, prepare, prepared);
    } else {
      RanFailedExtends(a, c, create, prepare);
    }
  }

  class StagedStatement<S> {
    const conn: Connection
    const deleteStmt: TypedStatement
    const insertStmt: BulkParamStatement<StagedRow<S>>
    const stmt: TypedStatement

    /** Puts together three statements freshly prepared on handles `h`, `h + 1` and `h + 2`. */
    constructor Assemble(conn: Connection, deleteStmt: TypedStatement, insertStmt: BulkParamStatement<StagedRow<S>>, stmt: TypedStatement, ghost h: nat)
      requires deleteStmt.stmt.driver == conn.driver && insertStmt.stmt.driver == conn.driver && stmt.stmt.driver == conn.driver
      requires deleteStmt.stmt.handle == h && insertStmt.stmt.handle == h + 1 && stmt.stmt.handle == h + 2
      requires insertStmt.params.Valid() && insertStmt.params.elems == []
      requires insertStmt.boundStorage == null && insertStmt.boundSize == 0
      ensures this.conn == conn && this.deleteStmt == deleteStmt && this.insertStmt == insertStmt && this.stmt == stmt
      ensures Prepared(conn, h, insertStmt.elemSize)
    {
      this.conn, this.deleteStmt, this.insertStmt, this.stmt := conn, deleteStmt, insertStmt, stmt;
    }

    /** All parts talk to the connection's driver, and the staged rows were sized through an `int32_t`. */
    ghost predicate Valid()
      reads insertStmt.params
    {
      deleteStmt.stmt.driver == conn.driver && insertStmt.stmt.driver == conn.driver && stmt.stmt.driver == conn.driver
      && insertStmt.params.Valid() && |insertStmt.params.elems| < INT32_LIMIT
    }

    /**
     * Freshly prepared: its statements hold handles `h`, `h + 1` and `h + 2`,
     * no rows are staged and the rows have not been bound yet.
     */
    ghost predicate Prepared(conn: Connection, h: nat, elemSize: nat)
      reads insertStmt, insertStmt.params
    {
      this.conn == conn && Valid() && Rows() == []
      && deleteStmt.stmt.handle == h && insertStmt.stmt.handle == h + 1 && stmt.stmt.handle == h + 2
      && insertStmt.elemSize == elemSize && insertStmt.boundStorage == null && insertStmt.boundSize == 0
    }

    /** The staged rows. */
    ghost function Rows(): seq<StagedRow<S>>
      reads insertStmt.params
    {
      insertStmt.params.elems
    }

    /** Prepares the staging DELETE. */
    static method OpenDelete(conn: Connection, deleteText: string) returns (d: TypedStatement?)
      modifies conn.driver
      ensures conn.driver.nextHandle == old(conn.driver.nextHandle) + 1
      ensures Ran(old(conn.driver.log), conn.driver.log, OpenCalls(conn.dbc, old(conn.driver.nextHandle), deleteText), d != null)
      ensures d != null ==> fresh(d) && fresh(d.stmt) && d.stmt.driver == conn.driver && d.stmt.handle == old(conn.driver.nextHandle)
    {
      var h := conn.driver.nextHandle;
      d := TypedStatement.Open(conn.driver, conn.dbc, deleteText, [], []);
      assert OpenCalls(conn.dbc, h, deleteText) + ParamCalls(h, 0, []) + ColCalls(h, 0, []) == OpenCalls(conn.dbc, h, deleteText);
    }

    /** Prepares the staging INSERT over a fresh, empty vector of rows. */
    static method OpenInsert(conn: Connection, insertText: string, elemSize: nat, zero: S)
      returns (b: BulkParamStatement?<StagedRow<S>>)
      modifies conn.driver
      ensures conn.driver.nextHandle == old(conn.driver.nextHandle) + 1
      ensures Ran(old(conn.driver.log), conn.driver.log, OpenCalls(conn.dbc, old(conn.driver.nextHandle), insertText), b != null)
      ensures b != null ==> (fresh(b) && fresh(b.stmt) && fresh(b.params)
        && b.stmt.driver == conn.driver && b.stmt.handle == old(conn.driver.nextHandle)
        && b.params.Valid() && b.params.elems == [] && b.elemSize == elemSize
        && b.boundStorage == null && b.boundSize == 0)
    {
      var rows := new Vector<StagedRow<S>>.Empty(StagedRow(0, zero));
      b := BulkParamStatement.Open(conn.driver, conn.dbc, insertText, rows, elemSize);
    }

    /** Prepares the staging DELETE and the staging INSERT over an empty vector of rows. */
    static method PrepareStaging(conn: Connection, deleteText: string, insertText: string, elemSize: nat, zero: S)
      returns (d: TypedStatement?, b: BulkParamStatement?<StagedRow<S>>)
      modifies conn.driver
      ensures var h := old(conn.driver.nextHandle);
        Ran(old(conn.driver.log), conn.driver.log,
            OpenCalls(conn.dbc, h, deleteText) + OpenCalls(conn.dbc, h + 1, insertText), d != null && b != null)
      ensures d != null && b != null ==> (fresh(d) && fresh(d.stmt) && fresh(b) && fresh(b.stmt) && fresh(b.params)
        && d.stmt.driver == conn.driver && d.stmt.handle == old(conn.driver.nextHandle)
        && b.stmt.driver == conn.driver && b.stmt.handle == old(conn.driver.nextHandle) + 1
        && b.params.Valid() && b.params.elems == [] && b.elemSize == elemSize
        && b.boundStorage == null && b.boundSize == 0)
      ensures d != null && b != null ==> conn.driver.nextHandle == old(conn.driver.nextHandle) + 2
    {
      var h := conn.driver.nextHandle;
      ghost var del := OpenCalls(conn.dbc, h, deleteText);
      ghost var ins := OpenCalls(conn.dbc, h + 1, insertText);
      d := OpenDelete(conn, deleteText);
      if d == null {
        RanFailedExtends(old(conn.driver.log), conn.driver.log, del, ins);
        return null, null;
      }
      ghost var step := conn.driver.log;
      b := OpenInsert(conn, insertText, elemSize, zero);
      AppendedThenRan(old(conn.driver.log), step, conn.driver.log, del, ins, b != null);
    }

    /** Prepares the staging DELETE, the staging INSERT over an empty vector of rows, and the main statement. */
    static method Prepare(conn: Connection, deleteText: string, insertText: string,
                          sql: string, params: seq<Field>, cols: seq<Field>, elemSize: nat, zero: S) returns (s: StagedStatement?<S>)
      requires forall i :: 0 <= i < |params| ==> Bindable(params[i].ty)
      requires forall i :: 0 <= i < |cols| ==> Bindable(cols[i].ty)
      modifies conn.driver
      ensures Ran(old(conn.driver.log), conn.driver.log,
                  PrepareCalls(conn.dbc, old(conn.driver.nextHandle), deleteText, insertText, sql, params, cols), s != null)
      ensures s != null ==> fresh(s) && fresh(s.insertStmt.params) && s.Prepared(conn, old(conn.driver.nextHandle), elemSize)
    {
      var h := conn.driver.nextHandle;
      ghost var staged := OpenCalls(conn.dbc, h, deleteText) + OpenCalls(conn.dbc, h + 1, insertText);
      ghost var main := OpenCalls(conn.dbc, h + 2, sql) + ParamCalls(h + 2, 0, params) + ColCalls(h + 2, 0, cols);
      assert PrepareCalls(conn.dbc, h, deleteText, insertText, sql, params, cols) == staged + main;
      var d, b := PrepareStaging(conn, deleteText, insertText, elemSize, zero);
      if d == null || b == null {
        RanFailedExtends(old(conn.driver.log), conn.driver.log, staged, main);
        return null;
      }
      ghost var step := conn.driver.log;
      var m := TypedStatement.Open(conn.driver, conn.dbc, sql, params, cols);
      AppendedThenRan(old(conn.driver.log), step, conn.driver.log, staged, main, m != null);
      if m == null {
        return null;
      }
      s := new StagedStatement.Assemble(conn, d, b, m, h);
    }

    /**
     * The constructor: creates the staging table (dropped first, temporary,
     * its first column the primary key), then prepares the three
     * statements, stopping at the first failure.
     */
    static method Open(conn: Connection, staging: string, names: seq<string>, payload: seq<ValueType>,
                       sql: string, params: seq<Field>, cols: seq<Field>, elemSize: nat, zero: S) returns (s: StagedStatement?<S>)
      requires Stageable(names, payload)
      requires forall i :: 0 <= i < |params| ==> Bindable(params[i].ty)
      requires forall i :: 0 <= i < |cols| ==> Bindable(cols[i].ty)
      modifies conn.driver
      ensures Ran(old(conn.driver.log), conn.driver.log,
                  StagedOpenCalls(conn.dbc, old(conn.driver.nextHandle), staging, names, payload, sql, params, cols), s != null)
      ensures s != null ==> fresh(s) && fresh(s.insertStmt.params) && s.Prepared(conn, old(conn.driver.nextHandle) + 2, elemSize)
    {
      ghost var h := conn.driver.nextHandle;
      var ok := CreateStaging(conn, staging, names, payload);
      ghost var created := conn.driver.log;
      if ok {
        var deleteText := DeleteFrom(staging);
        var insertText := InsertInto(staging, names);
        s := Prepare(conn, deleteText, insertText, sql, params, cols, elemSize, zero);
      } else {
        s := null;
      }
      StagedOpenRan(old(conn.driver.log), created, conn.driver.log, conn.dbc, h, staging, names, payload, sql, params, cols, ok, s != null);
    }

    /** Creates the staging table: dropped first, temporary, its first column (the row index) the primary key. */
    static method CreateStaging(conn: Connection, staging: string, names: seq<string>, payload: seq<ValueType>) returns (ok: bool)
      requires Stageable(names, payload)
      modifies conn.driver
      ensures Ran(old(conn.driver.log), conn.driver.log, StagingCalls(conn.dbc, old(conn.driver.nextHandle), staging, names, payload), ok)
      ensures ok ==> conn.driver.nextHandle == old(conn.driver.nextHandle) + 2
    {
      StageableTypes(names, payload);
      ok := CreateTable(conn, staging, names, StagingTypes(payload), STAGING_FLAGS);
      assert STAGING_FLAGS & DROP_TABLE_IF_EXISTS != 0 && STAGING_FLAGS & TEMPORARY_TABLE != 0
          && STAGING_FLAGS & FIRST_COLUMN_IS_PRIMARY_KEY != 0;
    }

    /**
     * `resizeStagedParams`: makes room for `size` staged rows. The `int32_t`
     * is converted to the vector's unsigned size, so a negative one asks for
     * more than any vector can hold and fails, changing nothing.
     */
    method ResizeStagedParams(size: int) returns (ok: bool)
      requires Valid()
      requires -INT32_LIMIT <= size < INT32_LIMIT
      modifies insertStmt.params
      ensures Valid()
      ensures ok <==> size >= 0
      ensures ok ==> Rows() == Resized(old(Rows()), size, insertStmt.params.zero)
      ensures !ok ==> Rows() == old(Rows())
    {
      if size < 0 {
        return false;
      }
      insertStmt.params.Resize(size);
      ok := true;
    }

    /** `stagedParams( index )`, read: the parameters of row `index`, never its sequence index. */
    function StagedParams(index: int): (p: S)
      requires 0 <= index < |insertStmt.params.elems|
      reads insertStmt.params
      ensures p == Rows()[index].second
    {
      insertStmt.params.elems[index].second
    }

    /** `stagedParams( index )`, written through: replaces the parameters of row `index` and nothing else. */
    method SetStagedParams(index: int, p: S)
      requires Valid()
      requires 0 <= index < |insertStmt.params.elems|
      modifies insertStmt.params`elems
      ensures Valid()
      ensures |Rows()| == |old(Rows())|
      ensures Rows()[index] == StagedRow(old(Rows())[index].first, p)
      ensures forall i :: 0 <= i < |Rows()| && i != index ==> Rows()[i] == old(Rows())[i]
    {
      var row := insertStmt.params.elems[index];
      insertStmt.params.elems := insertStmt.params.elems[index := StagedRow(row.first, p)];
    }

    /** The numbering loop of `exec`: row i gets index i, parameters untouched. */
    method StampRows()
      requires Valid()
      modifies insertStmt.params`elems
      ensures Valid()
      ensures Rows() == Stamped(old(Rows()))
    {
      var rows: Vector<StagedRow<S>> := insertStmt.params;
      var index := 0;
      while index < |rows.elems|
        invariant 0 <= index <= |rows.elems| == |old(rows.elems)|
        invariant forall i :: 0 <= i < index ==> rows.elems[i] == StagedRow(i, old(rows.elems)[i].second)
        invariant forall i :: index <= i < |rows.elems| ==> rows.elems[i] == old(rows.elems)[i]
      {
        rows.elems := rows.elems[index := StagedRow(index, rows.elems[index].second)];
        index := index + 1;
      }
    }

    /** The three statements of `exec`, in order, stopping at the first failure. */
    method RunStatements() returns (ok: bool)
      requires Valid()
      modifies insertStmt`boundStorage, insertStmt`boundSize, conn.driver`log
      ensures Valid()
      ensures Ran(old(conn.driver.log), conn.driver.log,
                  StagedExecCalls(deleteStmt.stmt.handle, insertStmt.stmt.handle, stmt.stmt.handle,
                                  insertStmt.elemSize, |Rows()|, !old(insertStmt.Bound())), ok)
      ensures ok ==> insertStmt.Bound()
      ensures old(insertStmt.Bound()) ==> insertStmt.Bound()
    {
      ghost var rebind := !insertStmt.Bound();
      var cleared := deleteStmt.Exec();
      ghost var afterDelete := conn.driver.log;
      var inserted := false;
      if cleared {
        inserted := insertStmt.Exec();
      }
      ghost var afterInsert := conn.driver.log;
      ok := false;
      if inserted {
        ok := stmt.Exec();
      }
      StagedExecRan(old(conn.driver.log), afterDelete, afterInsert, conn.driver.log,
                    deleteStmt.stmt.handle, insertStmt.stmt.handle, stmt.stmt.handle,
                    insertStmt.elemSize, |Rows()|, rebind, cleared, inserted, ok);
    }

    /**
     * `exec`: numbers the staged rows 0, 1, 2, ..., then clears the staging
     * table, inserts the rows, and executes the main statement, stopping at
     * the first failure. The rows are bound again only when the vector has
     * moved or changed size since the last binding.
     */
    method Exec() returns (ok: bool)
      requires Valid()
      modifies insertStmt.params`elems, insertStmt`boundStorage, insertStmt`boundSize, conn.driver`log
      ensures Valid()
      ensures Rows() == Stamped(old(Rows()))
      ensures Ran(old(conn.driver.log), conn.driver.log,
                  StagedExecCalls(deleteStmt.stmt.handle, insertStmt.stmt.handle, stmt.stmt.handle,
                                  insertStmt.elemSize, |Rows()|, !old(insertStmt.Bound())), ok)
      ensures ok ==> insertStmt.Bound()
      ensures old(insertStmt.Bound()) ==> insertStmt.Bound()
    {
      StampRows();
      ok := RunStatements();
    }

    /** `fetch` forwards to the main statement alone. */
    method Fetch() returns (ok: bool)
      requires Valid()
      modifies conn.driver`log
      ensures |conn.driver.log| == |old(conn.driver.log)| + 1 && conn.driver.log[..|old(conn.driver.log)|] == old(conn.driver.log)
      ensures var e := conn.driver.log[|old(conn.driver.log)|]; e.call.Fetch? && e.call.stmt == stmt.stmt.handle && ok == e.ok
    {
      ok := stmt.Fetch();
    }

    /**
     * `exec` twice in a row: the rows keep their numbering and, once the
     * first run went through, the second binds nothing and only runs the
     * three statements again.
     */
    method ExecTwice() returns (first: bool, second: bool)
      requires Valid()
      modifies insertStmt.params`elems, insertStmt`boundStorage, insertStmt`boundSize, conn.driver`log
      ensures Rows() == Stamped(old(Rows()))
      ensures first ==> Ran(old(conn.driver.log), conn.driver.log,
        StagedExecCalls(deleteStmt.stmt.handle, insertStmt.stmt.handle, stmt.stmt.handle, insertStmt.elemSize, |Rows()|, !old(insertStmt.Bound()))
        + StagedExecCalls(deleteStmt.stmt.handle, insertStmt.stmt.handle, stmt.stmt.handle, insertStmt.elemSize, |Rows()|, false), second)
    {
      first := Exec();
      ghost var mid := conn.driver.log;
      ghost var once := Rows();
      second := Exec();
      StampedIdempotent(old(Rows()));
      if first {
        AppendedThenRan(old(conn.driver.log), mid, conn.driver.log,
          StagedExecCalls(deleteStmt.stmt.handle, insertStmt.stmt.handle, stmt.stmt.handle, insertStmt.elemSize, |Rows()|, !old(insertStmt.Bound())),
          StagedExecCalls(deleteStmt.stmt.handle, insertStmt.stmt.handle, stmt.stmt.handle, insertStmt.elemSize, |Rows()|, false), second);
      }
    }
  }
}
