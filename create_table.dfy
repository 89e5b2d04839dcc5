/**
 * `CreateTable< Columns >`: optionally drops the table, then creates it with
 * one column per value type, named from a list of names, the first column
 * optionally being the primary key. Its behaviour is chosen by three flag
 * bits.
 */
module CreateTables {
  import opened Text
  import opened Values
  import opened Driver
  import opened Connections
  import opened Tables

  const DROP_TABLE_IF_EXISTS: bv32 := 1
  const TEMPORARY_TABLE: bv32 := 2
  const FIRST_COLUMN_IS_PRIMARY_KEY: bv32 := 4

  /** The three flags are distinct single bits, so any combination can be taken apart again. */
  lemma FlagsAreDistinctBits(flags: bv32)
    ensures DROP_TABLE_IF_EXISTS & TEMPORARY_TABLE == 0
    ensures DROP_TABLE_IF_EXISTS & FIRST_COLUMN_IS_PRIMARY_KEY == 0
    ensures TEMPORARY_TABLE & FIRST_COLUMN_IS_PRIMARY_KEY == 0
    ensures var all := DROP_TABLE_IF_EXISTS | TEMPORARY_TABLE | FIRST_COLUMN_IS_PRIMARY_KEY;
      all & DROP_TABLE_IF_EXISTS != 0 && all & TEMPORARY_TABLE != 0 && all & FIRST_COLUMN_IS_PRIMARY_KEY != 0
    ensures (flags | TEMPORARY_TABLE) & DROP_TABLE_IF_EXISTS == flags & DROP_TABLE_IF_EXISTS
  {
  }

  /** The SQL type name used for a column of type `t`, or None where the type has none. */
  function ColumnType(t: ValueType): Option<string>
  {
    match t
    case Int8 => Some("TINYINT")
    case Int16 => Some("SMALLINT")
    case Int32 => Some("INT")
    case Int64 => Some("BIGINT")
    case UInt8 => Some("TINYINT UNSIGNED")
    case UInt16 => Some("SMALLINT UNSIGNED")
    case UInt32 => Some("INT UNSIGNED")
    case UInt64 => Some("BIGINT UNSIGNED")
    case Float => Some("REAL")
    case Double => Some("DOUBLE PRECISION")
    case Bool => None
    case Timestamp => Some("TIMESTAMP")
    case String(_) => Some("TEXT")
    case Number(_) => None
    case Nullable(inner) => ColumnType(inner)
  }

  /** A nullable column is declared with its inner type (and nothing marks it as nullable). */
  lemma NullableColumnType(t: ValueType)
    ensures ColumnType(Nullable(t)) == ColumnType(t)
  {
  }

  /** Strings become TEXT whatever their size. */
  lemma StringColumnType(m: nat, n: nat)
    ensures ColumnType(String(m)) == ColumnType(String(n)) == Some("TEXT")
  {
  }

  /** One column's `name type`, marked as primary key when it is the first and that was asked for. */
  function Clause(name: string, sqlType: string, first: bool, firstIsPrimaryKey: bool): string
  {
    name + " " + sqlType + (if first && firstIsPrimaryKey then " PRIMARY KEY" else "")
  }

  /** The text `defineColumn` appends for one column: a separator unless it is the first, then its clause. */
  function ColumnClause(name: string, sqlType: string, first: bool, firstIsPrimaryKey: bool): string
  {
    (if first then "" else ", ") + Clause(name, sqlType, first, firstIsPrimaryKey)
  }

  /** The clauses of the columns, one per name and type. */
  function Clauses(names: seq<string>, types: seq<string>, firstIsPrimaryKey: bool): (r: seq<string>)
    requires |names| == |types|
    ensures |r| == |names|
    ensures forall i :: 0 <= i < |names| ==> r[i] == Clause(names[i], types[i], i == 0, firstIsPrimaryKey)
  {
    seq(|names|, i requires 0 <= i < |names| => Clause(names[i], types[i], i == 0, firstIsPrimaryKey))
  }

  /** The column list: the clauses joined by ", ". */
  function DefinitionText(names: seq<string>, types: seq<string>, firstIsPrimaryKey: bool): string
    requires |names| == |types|
  {
    Join(Clauses(names, types, firstIsPrimaryKey), ", ")
  }

  function DropIfExistsText(name: string): string
  {
    "DROP TABLE IF EXISTS " + name + ";"
  }

  function CreateTableText(name: string, definition: string, temporary: bool): string
  {
    "CREATE " + (if temporary then "TEMPORARY " else "") + "TABLE " + name + " (" + definition + ");"
  }

  /**
   * `defineColumn`: appends to `definition` a separator unless the column is
   * the first, then its name and type, then PRIMARY KEY when it is the
   * first and that was asked for.
   */
  method DefineColumn(definition: string, name: string, sqlType: string, first: bool, firstIsPrimaryKey: bool) returns (r: string)
    ensures r == definition + ColumnClause(name, sqlType, first, firstIsPrimaryKey)
  {
    r := definition;
    if !first {
      r := r + ", ";
    }
    r := r + name + " " + sqlType;
    if first && firstIsPrimaryKey {
      r := r + " PRIMARY KEY";
    }
  }

  /** The SQL type names of `columns`, in order. */
  function ColumnTypes(columns: seq<ValueType>): (r: seq<string>)
    requires forall i :: 0 <= i < |columns| ==> ColumnType(columns[i]).Some?
    ensures |r| == |columns| && forall i :: 0 <= i < |columns| ==> r[i] == ColumnType(columns[i]).value
  {
    seq(|columns|, i requires 0 <= i < |columns| => ColumnType(columns[i]).value)
  }

  /**
   * `DefineColumns` applied to each column type in turn: the i-th column
   * takes the i-th name and is `first` only for i == 0. The names must
   * cover the columns.
   */
  method DefineColumns(names: seq<string>, columns: seq<ValueType>, firstIsPrimaryKey: bool) returns (definition: string)
    requires |columns| <= |names|
    requires forall i :: 0 <= i < |columns| ==> ColumnType(columns[i]).Some?
    ensures definition == DefinitionText(names[..|columns|], ColumnTypes(columns), firstIsPrimaryKey)
  {
    definition := "";
    ghost var types := ColumnTypes(columns);
    ghost var used := names[..|columns|];
    var index := 0;
    while index < |columns|
      invariant 0 <= index <= |columns|
      invariant definition == DefinitionText(used[..index], types[..index], firstIsPrimaryKey)
    {
      DefinitionExtends(used, types, firstIsPrimaryKey, index);
      definition := DefineColumn(definition, names[index], ColumnType(columns[index]).value, index == 0, firstIsPrimaryKey);
      index := index + 1;
    }
    assert used[..index] == used && types[..index] == types;
  }

  /** The column list grows by exactly one clause per column, so the text of k columns starts the text of k + 1. */
  lemma {:induction false} DefinitionExtends(names: seq<string>, types: seq<string>, firstIsPrimaryKey: bool, k: nat)
    requires |names| == |types| && k < |names|
    ensures DefinitionText(names[..k + 1], types[..k + 1], firstIsPrimaryKey)
      == DefinitionText(names[..k], types[..k], firstIsPrimaryKey) + ColumnClause(names[k], types[k], k == 0, firstIsPrimaryKey)
  {
    var parts := Clauses(names, types, firstIsPrimaryKey);
    JoinSnoc(parts, ", ", k);
    assert Clauses(names[..k + 1], types[..k + 1], firstIsPrimaryKey) == parts[..k + 1];
    assert Clauses(names[..k], types[..k], firstIsPrimaryKey) == parts[..k];
  }

  /** `dropTableIfExists`: runs DROP TABLE IF EXISTS on the name. */
  method DropTableIfExists(conn: Connection, name: string) returns (ok: bool)
    modifies conn.driver
    ensures conn.driver.nextHandle == old(conn.driver.nextHandle) + 1
    ensures Ran(old(conn.driver.log), conn.driver.log, RunCalls(conn.dbc, old(conn.driver.nextHandle), DropIfExistsText(name)), ok)
    ensures old(conn.driver.Valid()) ==> conn.driver.Valid()
  {
    var stmt := "DROP TABLE IF EXISTS ";
    stmt := stmt + name;
    stmt := stmt + ";";
    ok := RunStatement(conn, stmt);
  }

  /** `createTable`: runs CREATE [TEMPORARY] TABLE with the given column list. */
  method CreateTableStatement(conn: Connection, name: string, definition: string, temporary: bool) returns (ok: bool)
    modifies conn.driver
    ensures conn.driver.nextHandle == old(conn.driver.nextHandle) + 1
    ensures Ran(old(conn.driver.log), conn.driver.log, RunCalls(conn.dbc, old(conn.driver.nextHandle), CreateTableText(name, definition, temporary)), ok)
    ensures old(conn.driver.Valid()) ==> conn.driver.Valid()
  {
    var stmt := "CREATE ";
    if temporary {
      stmt := stmt + "TEMPORARY ";
    }
    stmt := stmt + "TABLE ";
    stmt := stmt + name;
    stmt := stmt + " (";
    stmt := stmt + definition;
    stmt := stmt + ");";
    assert stmt == CreateTableText(name, definition, temporary);
    ok := RunStatement(conn, stmt);
  }

  /** The calls of the constructor with its flags decoded, starting with handle `h`. */
  function CreateCalls(dbc: nat, h: nat, name: string, names: seq<string>, columns: seq<ValueType>,
                       drop: bool, temporary: bool, firstIsPrimaryKey: bool): seq<Call>
    requires |columns| <= |names|
    requires forall i :: 0 <= i < |columns| ==> ColumnType(columns[i]).Some?
  {
    var definition := DefinitionText(names[..|columns|], ColumnTypes(columns), firstIsPrimaryKey);
    (if drop then RunCalls(dbc, h, DropIfExistsText(name)) else [])
    + RunCalls(dbc, if drop then h + 1 else h, CreateTableText(name, definition, temporary))
  }

  /** The calls of the constructor, starting with handle `h`. */
  function CreateTableCalls(dbc: nat, h: nat, name: string, names: seq<string>, columns: seq<ValueType>, flags: bv32): seq<Call>
    requires |columns| <= |names|
    requires forall i :: 0 <= i < |columns| ==> ColumnType(columns[i]).Some?
  {
    CreateCalls(dbc, h, name, names, columns, flags & DROP_TABLE_IF_EXISTS != 0,
                flags & TEMPORARY_TABLE != 0, flags & FIRST_COLUMN_IS_PRIMARY_KEY != 0)
  }

  /** Builds the column list and runs CREATE [TEMPORARY] TABLE with it. */
  method DefineAndCreate(conn: Connection, name: string, names: seq<string>, columns: seq<ValueType>,
                         firstIsPrimaryKey: bool, temporary: bool) returns (ok: bool)
    requires |columns| <= |names|
    requires forall i :: 0 <= i < |columns| ==> ColumnType(columns[i]).Some?
    modifies conn.driver
    ensures conn.driver.nextHandle == old(conn.driver.nextHandle) + 1
    ensures Ran(old(conn.driver.log), conn.driver.log,
                RunCalls(conn.dbc, old(conn.driver.nextHandle),
                         CreateTableText(name, DefinitionText(names[..|columns|], ColumnTypes(columns), firstIsPrimaryKey), temporary)), ok)
    ensures old(conn.driver.Valid()) ==> conn.driver.Valid()
  {
    var definition := DefineColumns(names, columns, firstIsPrimaryKey);
    ok := CreateTableStatement(conn, name, definition, temporary);
  }

  /** DROP TABLE IF EXISTS, then the column list and CREATE TABLE, stopping at the first failure. */
  method DropThenCreate(conn: Connection, name: string, names: seq<string>, columns: seq<ValueType>,
                        temporary: bool, firstIsPrimaryKey: bool) returns (ok: bool)
    requires |columns| <= |names|
    requires forall i :: 0 <= i < |columns| ==> ColumnType(columns[i]).Some?
    modifies conn.driver
    ensures Ran(old(conn.driver.log), conn.driver.log,
                CreateCalls(conn.dbc, old(conn.driver.nextHandle), name, names, columns, true, temporary, firstIsPrimaryKey), ok)
    ensures ok ==> conn.driver.nextHandle == old(conn.driver.nextHandle) + 2
    ensures old(conn.driver.Valid()) ==> conn.driver.Valid()
  {
    var h := conn.driver.nextHandle;
    ghost var dropCalls := RunCalls(conn.dbc, h, DropIfExistsText(name));
    ghost var createCalls := RunCalls(conn.dbc, h + 1,
      CreateTableText(name, DefinitionText(names[..|columns|], ColumnTypes(columns), firstIsPrimaryKey), temporary));
    assert CreateCalls(conn.dbc, h, name, names, columns, true, temporary, firstIsPrimaryKey) == dropCalls + createCalls;
    ok := DropTableIfExists(conn, name);
    if !ok {
      RanFailedExtends(old(conn.driver.log), conn.driver.log, dropCalls, createCalls);
      return;
    }
    ghost var dropped := conn.driver.log;
    ok := DefineAndCreate(conn, name, names, columns, firstIsPrimaryKey, temporary);
    AppendedThenRan(old(conn.driver.log), dropped, conn.driver.log, dropCalls, createCalls, ok);
  }

  /** The constructor's steps once its flags are decoded, stopping at the first failure. */
  method CreateWith(conn: Connection, name: string, names: seq<string>, columns: seq<ValueType>,
                    drop: bool, temporary: bool, firstIsPrimaryKey: bool) returns (ok: bool)
    requires |columns| <= |names|
    requires forall i :: 0 <= i < |columns| ==> ColumnType(columns[i]).Some?
    modifies conn.driver
    ensures Ran(old(conn.driver.log), conn.driver.log,
                CreateCalls(conn.dbc, old(conn.driver.nextHandle), name, names, columns, drop, temporary, firstIsPrimaryKey), ok)
    ensures ok ==> conn.driver.nextHandle == old(conn.driver.nextHandle) + (if drop then 2 else 1)
    ensures old(conn.driver.Valid()) ==> conn.driver.Valid()
  {
    if drop {
      ok := DropThenCreate(conn, name, names, columns, temporary, firstIsPrimaryKey);
    } else {
      ghost var createCalls := RunCalls(conn.dbc, conn.driver.nextHandle,
        CreateTableText(name, DefinitionText(names[..|columns|], ColumnTypes(columns), firstIsPrimaryKey), temporary));
      assert CreateCalls(conn.dbc, conn.driver.nextHandle, name, names, columns, false, temporary, firstIsPrimaryKey) == createCalls;
      ok := DefineAndCreate(conn, name, names, columns, firstIsPrimaryKey, temporary);
    }
  }

  /**
   * The constructor: drops the table first only when DROP_TABLE_IF_EXISTS
   * is set, builds the column list (first column as primary key only when
   * FIRST_COLUMN_IS_PRIMARY_KEY is set) and creates the table, temporary
   * only when TEMPORARY_TABLE is set. It stops at the first failure.
   */
  method CreateTable(conn: Connection, name: string, names: seq<string>, columns: seq<ValueType>, flags: bv32) returns (ok: bool)
    requires |columns| <= |names|
    requires forall i :: 0 <= i < |columns| ==> ColumnType(columns[i]).Some?
    modifies conn.driver
    ensures Ran(old(conn.driver.log), conn.driver.log, CreateTableCalls(conn.dbc, old(conn.driver.nextHandle), name, names, columns, flags), ok)
    ensures ok ==> conn.driver.nextHandle == old(conn.driver.nextHandle) + (if flags & DROP_TABLE_IF_EXISTS != 0 then 2 else 1)
    ensures old(conn.driver.Valid()) ==> conn.driver.Valid()
  {
    ok := CreateWith(conn, name, names, columns, flags & DROP_TABLE_IF_EXISTS != 0,
                     flags & TEMPORARY_TABLE != 0, flags & FIRST_COLUMN_IS_PRIMARY_KEY != 0);
  }
}
