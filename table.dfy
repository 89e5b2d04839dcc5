/**
 * The SQL text a table issues: CREATE and DROP statements, which are run at
 * once, and the SELECT, INSERT, UPDATE and DELETE statements the table
 * prepares. Columns are addressed by their position in the table's list of
 * column names; key and value lists are lists of such positions.
 */
module Tables {
  import opened Text
  import opened Driver
  import opened Statements
  import opened Connections

  /** Every listed position names one of `n` columns. */
  predicate ValidIndices(idx: seq<nat>, n: nat)
  {
    forall i :: 0 <= i < |idx| ==> idx[i] < n
  }

  /** The names of the listed columns, in the order listed. */
  function Pick(names: seq<string>, idx: seq<nat>): (r: seq<string>)
    requires ValidIndices(idx, |names|)
    ensures |r| == |idx| && forall i :: 0 <= i < |idx| ==> r[i] == names[idx[i]]
  {
    seq(|idx|, i requires 0 <= i < |idx| => names[idx[i]])
  }

  /** `name = ?` for each listed column, in the order listed. */
  function Assignments(names: seq<string>, idx: seq<nat>): (r: seq<string>)
    requires ValidIndices(idx, |names|)
    ensures |r| == |idx| && forall i :: 0 <= i < |idx| ==> r[i] == names[idx[i]] + " = ?"
  {
    seq(|idx|, i requires 0 <= i < |idx| => names[idx[i]] + " = ?")
  }

  /** The WHERE clause of a key: nothing for an empty key, otherwise its conditions joined by AND. */
  function WhereClause(names: seq<string>, key: seq<nat>): string
    requires ValidIndices(key, |names|)
  {
    if |key| == 0 then "" else " WHERE " + Join(Assignments(names, key), " AND ")
  }

  function SelectText(table: string, names: seq<string>, key: seq<nat>): string
    requires ValidIndices(key, |names|)
  {
    "SELECT " + Join(names, ", ") + " FROM " + table + WhereClause(names, key)
  }

  function InsertText(table: string, names: seq<string>): string
  {
    "INSERT INTO " + table + " (" + Join(names, ", ") + ") VALUES (" + Join(Repeat("?", |names|), ", ") + ")"
  }

  function UpdateText(table: string, names: seq<string>, value: seq<nat>, key: seq<nat>): string
    requires ValidIndices(value, |names|) && ValidIndices(key, |names|)
  {
    "UPDATE " + table + " SET " + Join(Assignments(names, value), ", ") + WhereClause(names, key)
  }

  function DeleteText(table: string, names: seq<string>, key: seq<nat>): string
    requires ValidIndices(key, |names|)
  {
    "DELETE FROM " + table + WhereClause(names, key)
  }

  /** One column of a CREATE statement: its name, SQL type, size (0 for none) and constraint, if any. */
  datatype ColumnSpec = ColumnSpec(name: string, sqlType: string, size: nat, constraint: Option<string>)

  function ColumnText(c: ColumnSpec): string
  {
    c.name + " " + c.sqlType
    + (if c.size != 0 then "(" + Digits(c.size) + ")" else "")
    + (if c.constraint.Some? then " " + c.constraint.value else "")
  }

  function ColumnTexts(cols: seq<ColumnSpec>): (r: seq<string>)
    ensures |r| == |cols| && forall i :: 0 <= i < |cols| ==> r[i] == ColumnText(cols[i])
  {
    seq(|cols|, i requires 0 <= i < |cols| => ColumnText(cols[i]))
  }

  function ColumnNames(cols: seq<ColumnSpec>): (r: seq<string>)
    ensures |r| == |cols| && forall i :: 0 <= i < |cols| ==> r[i] == cols[i].name
  {
    seq(|cols|, i requires 0 <= i < |cols| => cols[i].name)
  }

  function PrimaryKeyClause(names: seq<string>, primaryKey: seq<nat>): string
    requires ValidIndices(primaryKey, |names|)
  {
    if |primaryKey| == 0 then "" else ", PRIMARY KEY (" + Join(Pick(names, primaryKey), ", ") + ")"
  }

  function CreateText(table: string, cols: seq<ColumnSpec>, primaryKey: seq<nat>, temporary: bool): string
    requires ValidIndices(primaryKey, |cols|)
  {
    "CREATE " + (if temporary then "TEMPORARY " else "") + "TABLE " + table + " ("
    + Join(ColumnTexts(cols), ", ") + PrimaryKeyClause(ColumnNames(cols), primaryKey) + ")"
  }

  function DropText(table: string, ifExists: bool): string
  {
    "DROP TABLE " + (if ifExists then "IF EXISTS " else "") + table
  }

  // ---------------------------------------------------------------------
  // Running a statement once

  /** The calls of `Statement{ conn, sql }.exec()` on the fresh handle `h`. */
  function RunCalls(dbc: nat, h: nat, sql: string): seq<Call>
  {
    [AllocStmt(dbc, h), Prepare(h, sql)] + ExecCalls(h)
  }

  /** Prepares `sql` on a fresh statement and executes it, stopping at the first checked call that fails. */
  method RunStatement(conn: Connection, sql: string) returns (ok: bool)
    modifies conn.driver
    ensures conn.driver.nextHandle == old(conn.driver.nextHandle) + 1
    ensures Ran(old(conn.driver.log), conn.driver.log, RunCalls(conn.dbc, old(conn.driver.nextHandle), sql), ok)
    ensures old(conn.driver.Valid()) ==> conn.driver.Valid()
  {
    var h := conn.driver.nextHandle;
    var s := Statement.Open(conn.driver, conn.dbc, sql);
    if s == null {
      RanFailedExtends(old(conn.driver.log), conn.driver.log, [AllocStmt(conn.dbc, h), Prepare(h, sql)], ExecCalls(h));
      return false;
    }
    ghost var prepared := conn.driver.log;
    ok := s.Exec();
    AppendedThenRan(old(conn.driver.log), prepared, conn.driver.log, [AllocStmt(conn.dbc, h), Prepare(h, sql)], ExecCalls(h), ok);
  }

  // ---------------------------------------------------------------------
  // The builders

  /** The CREATE statement, built column by column as `create` does. */
  method CreateStatement(table: string, cols: seq<ColumnSpec>, primaryKey: seq<nat>, temporary: bool) returns (stmt: string)
    requires ValidIndices(primaryKey, |cols|)
    ensures stmt == CreateText(table, cols, primaryKey, temporary)
  {
    stmt := "CREATE ";
    if temporary {
      stmt := stmt + "TEMPORARY ";
    }
    stmt := stmt + "TABLE " + table + " (";
    stmt := AppendColumns(stmt, cols);
    stmt := AppendPrimaryKey(stmt, ColumnNames(cols), primaryKey);
    stmt := stmt + ")";
  }

  /** One column of `create`: name and type, then the size in parentheses unless it is 0, then the constraint if any. */
  method ColumnPiece(c: ColumnSpec) returns (piece: string)
    ensures piece == ColumnText(c)
  {
    piece := c.name + " " + c.sqlType;
    if c.size != 0 {
      piece := piece + "(" + Digits(c.size) + ")";
    }
    if c.constraint.Some? {
      piece := piece + " " + c.constraint.value;
    }
  }

  /** The column loop of `create`: the column texts, separated by ", ". */
  method AppendColumns(stmt: string, cols: seq<ColumnSpec>) returns (r: string)
    ensures r == stmt + Join(ColumnTexts(cols), ", ")
  {
    r := stmt;
    ghost var texts := ColumnTexts(cols);
    var column := 0;
    while column != |cols|
      invariant 0 <= column <= |cols|
      invariant r == stmt + Join(texts[..column], ", ")
    {
      JoinSnoc(texts, ", ", column);
      if column != 0 {
        r := r + ", ";
      }
      var piece := ColumnPiece(cols[column]);
      r := r + piece;
      column := column + 1;
    }
    assert texts[..column] == texts;
  }

  /** The PRIMARY KEY clause of `create`, present only for a non-empty key. */
  method AppendPrimaryKey(stmt: string, names: seq<string>, primaryKey: seq<nat>) returns (r: string)
    requires ValidIndices(primaryKey, |names|)
    ensures r == stmt + PrimaryKeyClause(names, primaryKey)
  {
    r := stmt;
    if |primaryKey| != 0 {
      r := r + ", PRIMARY KEY (";
      ghost var open := r;
      ghost var keyNames := Pick(names, primaryKey);
      var k := 0;
      while k != |primaryKey|
        invariant 0 <= k <= |primaryKey|
        invariant r == open + Join(keyNames[..k], ", ")
      {
        JoinSnoc(keyNames, ", ", k);
        if k != 0 {
          r := r + ", ";
        }
        r := r + names[primaryKey[k]];
        k := k + 1;
      }
      assert keyNames[..k] == keyNames;
      r := r + ")";
    }
  }

  /** `create`: builds the CREATE statement and runs it. */
  method Create(conn: Connection, table: string, cols: seq<ColumnSpec>, primaryKey: seq<nat>, temporary: bool) returns (ok: bool)
    requires ValidIndices(primaryKey, |cols|)
    modifies conn.driver
    ensures conn.driver.nextHandle == old(conn.driver.nextHandle) + 1
    ensures Ran(old(conn.driver.log), conn.driver.log,
                RunCalls(conn.dbc, old(conn.driver.nextHandle), CreateText(table, cols, primaryKey, temporary)), ok)
    ensures old(conn.driver.Valid()) ==> conn.driver.Valid()
  {
    var stmt := CreateStatement(table, cols, primaryKey, temporary);
    ok := RunStatement(conn, stmt);
  }

  /** `drop`: runs DROP TABLE, with IF EXISTS when asked. */
  method Drop(conn: Connection, table: string, ifExists: bool) returns (ok: bool)
    modifies conn.driver
    ensures conn.driver.nextHandle == old(conn.driver.nextHandle) + 1
    ensures Ran(old(conn.driver.log), conn.driver.log, RunCalls(conn.dbc, old(conn.driver.nextHandle), DropText(table, ifExists)), ok)
    ensures old(conn.driver.Valid()) ==> conn.driver.Valid()
  {
    var stmt := "DROP TABLE ";
    if ifExists {
      stmt := stmt + "IF EXISTS ";
    }
    stmt := stmt + table;
    assert stmt == DropText(table, ifExists);
    ok := RunStatement(conn, stmt);
  }

  /** Appends the WHERE clause of `key` to `stmt`, one condition per key column. */
  method AppendWhere(stmt: string, names: seq<string>, key: seq<nat>) returns (r: string)
    requires ValidIndices(key, |names|)
    ensures r == stmt + WhereClause(names, key)
  {
    r := stmt;
    if |key| != 0 {
      r := r + " WHERE ";
      ghost var head := r;
      ghost var conds := Assignments(names, key);
      var k := 0;
      while k != |key|
        invariant 0 <= k <= |key|
        invariant r == head + Join(conds[..k], " AND ")
      {
        JoinSnoc(conds, " AND ", k);
        if k != 0 {
          r := r + " AND ";
        }
        var condition := names[key[k]] + " = ?";
        r := r + condition;
        k := k + 1;
      }
      assert conds[..k] == conds;
      assert r == stmt + (" WHERE " + Join(conds, " AND "));
    }
  }

  /** `select`: every column, in order, from the table, restricted by the key. */
  method Select(table: string, names: seq<string>, key: seq<nat>) returns (stmt: string)
    requires ValidIndices(key, |names|)
    ensures stmt == SelectText(table, names, key)
  {
    stmt := "SELECT ";
    var column := 0;
    while column != |names|
      invariant 0 <= column <= |names|
      invariant stmt == "SELECT " + Join(names[..column], ", ")
    {
      JoinSnoc(names, ", ", column);
      if column != 0 {
        stmt := stmt + ", ";
      }
      stmt := stmt + names[column];
      column := column + 1;
    }
    assert names[..column] == names;
    stmt := stmt + " FROM " + table;
    stmt := AppendWhere(stmt, names, key);
  }

  /** `insert`: every column, in order, with one placeholder each. */
  method Insert(table: string, names: seq<string>) returns (stmt: string)
    ensures stmt == InsertText(table, names)
  {
    stmt := "INSERT INTO " + table + " (";
    ghost var head := stmt;
    var column := 0;
    while column != |names|
      invariant 0 <= column <= |names|
      invariant stmt == head + Join(names[..column], ", ")
    {
      JoinSnoc(names, ", ", column);
      if column != 0 {
        stmt := stmt + ", ";
      }
      stmt := stmt + names[column];
      column := column + 1;
    }
    assert names[..column] == names;
    stmt := stmt + ") VALUES (";
    ghost var values := stmt;
    var marks := Repeat("?", |names|);
    column := 0;
    while column != |names|
      invariant 0 <= column <= |names|
      invariant stmt == values + Join(marks[..column], ", ")
    {
      JoinSnoc(marks, ", ", column);
      if column != 0 {
        stmt := stmt + ", ";
      }
      stmt := stmt + "?";
      column := column + 1;
    }
    assert marks[..column] == marks;
    stmt := stmt + ")";
  }

  /** `update`: one assignment per value column, in the order given, restricted by the key. */
  method Update(table: string, names: seq<string>, value: seq<nat>, key: seq<nat>) returns (stmt: string)
    requires ValidIndices(value, |names|) && ValidIndices(key, |names|)
    ensures stmt == UpdateText(table, names, value, key)
  {
    stmt := "UPDATE " + table + " SET ";
    ghost var head := stmt;
    var sets := Assignments(names, value);
    var k := 0;
    while k != |value|
      invariant 0 <= k <= |value|
      invariant stmt == head + Join(sets[..k], ", ")
    {
      JoinSnoc(sets, ", ", k);
      if k != 0 {
        stmt := stmt + ", ";
      }
      stmt := stmt + names[value[k]] + " = ?";
      k := k + 1;
    }
    assert sets[..k] == sets;
    stmt := AppendWhere(stmt, names, key);
  }

  /** `delete_`: the table, restricted by the key. */
  method Delete(table: string, names: seq<string>, key: seq<nat>) returns (stmt: string)
    requires ValidIndices(key, |names|)
    ensures stmt == DeleteText(table, names, key)
  {
    stmt := "DELETE FROM " + table;
    stmt := AppendWhere(stmt, names, key);
  }

  // ---------------------------------------------------------------------
  // Properties of the text

  /** Text that holds no `?` of its own. */
  predicate NoMark(s: string)
  {
    '?' !in s
  }

  predicate NoMarks(names: seq<string>)
  {
    forall i :: 0 <= i < |names| ==> NoMark(names[i])
  }

  /** Placeholders of a concatenation of three pieces. */
  lemma Marks3(a: string, b: string, c: string)
    ensures Occurrences(a + b + c, '?') == Occurrences(a, '?') + Occurrences(b, '?') + Occurrences(c, '?')
  {
    OccurrencesConcat(a, b, '?');
    OccurrencesConcat(a + b, c, '?');
  }

  /** Each listed column contributes exactly one placeholder to a WHERE clause or SET list. */
  lemma AssignmentsMarks(names: seq<string>, idx: seq<nat>, sep: string)
    requires ValidIndices(idx, |names|) && NoMarks(names) && NoMark(sep)
    ensures Occurrences(Join(Assignments(names, idx), sep), '?') == |idx|
  {
    var parts := Assignments(names, idx);
    forall i | 0 <= i < |parts|
      ensures Occurrences(parts[i], '?') == 1
    {
      OccurrencesAbsent(names[idx[i]], '?');
      OccurrencesConcat(names[idx[i]], " = ?", '?');
      assert " = ?" == " = " + "?";
      OccurrencesAbsent(" = ", '?');
      OccurrencesConcat(" = ", "?", '?');
      assert "?"[..0] == "";
    }
    JoinCount(parts, sep, '?', 1);
  }

  lemma WhereMarks(names: seq<string>, key: seq<nat>)
    requires ValidIndices(key, |names|) && NoMarks(names)
    ensures Occurrences(WhereClause(names, key), '?') == |key|
  {
    if |key| != 0 {
      AssignmentsMarks(names, key, " AND ");
      OccurrencesAbsent(" WHERE ", '?');
      OccurrencesConcat(" WHERE ", Join(Assignments(names, key), " AND "), '?');
    }
  }

  lemma NamesMarks(names: seq<string>)
    requires NoMarks(names)
    ensures Occurrences(Join(names, ", "), '?') == 0
  {
    forall i | 0 <= i < |names|
      ensures Occurrences(names[i], '?') == 0
    {
      OccurrencesAbsent(names[i], '?');
    }
    JoinCount(names, ", ", '?', 0);
  }

  /** With names free of `?`, SELECT and DELETE carry one placeholder per key column. */
  lemma SelectDeleteMarks(table: string, names: seq<string>, key: seq<nat>)
    requires NoMark(table) && NoMarks(names) && ValidIndices(key, |names|)
    ensures Occurrences(SelectText(table, names, key), '?') == |key|
    ensures Occurrences(DeleteText(table, names, key), '?') == |key|
  {
    OccurrencesAbsent(table, '?');
    NamesMarks(names);
    WhereMarks(names, key);
    OccurrencesAbsent("SELECT ", '?');
    OccurrencesAbsent(" FROM ", '?');
    OccurrencesAbsent("DELETE FROM ", '?');
    Marks3("SELECT ", Join(names, ", "), " FROM ");
    Marks3("SELECT " + Join(names, ", ") + " FROM ", table, WhereClause(names, key));
    OccurrencesConcat("DELETE FROM ", table, '?');
    OccurrencesConcat("DELETE FROM " + table, WhereClause(names, key), '?');
  }

  /** UPDATE carries one placeholder per value column and one per key column. */
  lemma UpdateMarks(table: string, names: seq<string>, value: seq<nat>, key: seq<nat>)
    requires NoMark(table) && NoMarks(names)
    requires ValidIndices(value, |names|) && ValidIndices(key, |names|)
    ensures Occurrences(UpdateText(table, names, value, key), '?') == |value| + |key|
  {
    OccurrencesAbsent(table, '?');
    WhereMarks(names, key);
    AssignmentsMarks(names, value, ", ");
    OccurrencesAbsent("UPDATE ", '?');
    OccurrencesAbsent(" SET ", '?');
    var head, sets, where := "UPDATE " + table + " SET ", Join(Assignments(names, value), ", "), WhereClause(names, key);
    assert Occurrences(head, '?') == 0 by {
      Marks3("UPDATE ", table, " SET ");
    }
    assert UpdateText(table, names, value, key) == head + sets + where;
    Marks3(head, sets, where);
  }

  /** INSERT carries one placeholder per column. */
  lemma InsertMarks(table: string, names: seq<string>)
    requires NoMark(table) && NoMarks(names)
    ensures Occurrences(InsertText(table, names), '?') == |names|
  {
    OccurrencesAbsent(table, '?');
    NamesMarks(names);
    var marks := Repeat("?", |names|);
    forall i | 0 <= i < |marks|
      ensures Occurrences(marks[i], '?') == 1
    {
      assert marks[i][..0] == "";
    }
    JoinCount(marks, ", ", '?', 1);
    OccurrencesAbsent("INSERT INTO ", '?');
    OccurrencesAbsent(" (", '?');
    OccurrencesAbsent(") VALUES (", '?');
    OccurrencesAbsent(")", '?');
    Marks3("INSERT INTO ", table, " (");
    Marks3("INSERT INTO " + table + " (", Join(names, ", "), ") VALUES (");
    Marks3("INSERT INTO " + table + " (" + Join(names, ", ") + ") VALUES (", Join(marks, ", "), ")");
  }

  /** Whatever the columns and the key, the opening of a CREATE text says TEMPORARY exactly when asked for. */
  lemma OpeningTemporaryIff(temporary: bool, table: string, columns: string, key: string)
    ensures var t := "CREATE " + (if temporary then "TEMPORARY " else "") + "TABLE " + table + " (" + columns + key + ")";
      temporary <==> |t| >= 17 && t[..17] == "CREATE TEMPORARY "
  {
    var t := "CREATE " + (if temporary then "TEMPORARY " else "") + "TABLE " + table + " (" + columns + key + ")";
    if !temporary {
      assert t[8] == 'A';
      assert "CREATE TEMPORARY "[8] == 'E';
    }
  }

  /** The CREATE text is a temporary one exactly when asked for. */
  lemma CreateTemporaryIff(table: string, cols: seq<ColumnSpec>, primaryKey: seq<nat>, temporary: bool)
    requires ValidIndices(primaryKey, |cols|)
    ensures var t := CreateText(table, cols, primaryKey, temporary);
      temporary <==> |t| >= 17 && t[..17] == "CREATE TEMPORARY "
  {
    OpeningTemporaryIff(temporary, table, Join(ColumnTexts(cols), ", "), PrimaryKeyClause(ColumnNames(cols), primaryKey));
  }

  /** The DROP text names IF EXISTS exactly when asked, for a table name that is a single word. */
  lemma DropIfExistsIff(table: string, ifExists: bool)
    requires ' ' !in table
    ensures var t := DropText(table, ifExists);
      ifExists <==> |t| >= 21 && t[..21] == "DROP TABLE IF EXISTS "
  {
    var t := DropText(table, ifExists);
    if !ifExists && |t| >= 21 {
      assert t[11..] == table;
      assert t[13] == table[2];
      assert "DROP TABLE IF EXISTS "[13] == ' ';
    }
  }
}
