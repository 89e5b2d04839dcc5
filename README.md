# rodbc core in Dafny

rodbc is a thin C++ wrapper over ODBC. This project models its sequential core. Every ODBC call is treated as an action of an abstract driver manager: the call is appended to the driver's `log` together with the driver's verdict, i.e. whether `SQL_SUCCEEDED` held.

- **Connections** (`connection.dfy`):
  - The `Connection` constructor: environment, ODBC 3, no pooling, connect, autocommit off.
  - `Connection::isDead`.
  - The RAII `Transaction` guard: begin, commit, destructor, move construction and move assignment.
- **Statements** (`statement.dfy`):
  - `Statement` with its two slot counters `param_` and `col_`.
  - What each bind hands to the driver (C type, SQL type, size, length, indicator).
  - `exec`, `fetch`, and the parameter- and row-array attributes.
- **Typed statements** (`typed_statement.dfy`, `vector.dfy`):
  - The scalar `TypedStatement` forwards to its `Statement`.
  - The bulk-parameter form rebinds its vector only when `(data(), size())` changed.
  - The bulk-result form fetches one batch per call into a vector whose capacity is the batch size. The vector is modelled as a class with elements, a capacity, and the identity of its heap block.
- **Staged statements** (`staged_statement.dfy`): `StagedStatement` creates a temporary staging table. Each `exec` numbers the staged rows 0..N-1, empties the table, bulk-inserts the rows and runs the main statement.
- **Indicator buffers and timestamps** (`types.dfy`, `text.dfy`): `assign`, `compare`, `str`, `c_str` and `Timestamp::str`.
- **SQL text builders** (`table.dfy`, `create_table.dfy`, `column_definition.dfy`):
  - `create`, `drop`, `select`, `insert`, `update`, `delete_`;
  - `deleteFrom`, `insertInto`;
  - `dropTableIfExists`, `createTable`, `defineColumn`, `DefineColumns`;
  - the `CreateTable` flags, the `ColumnType` table and the `ColumnDefinition` table.

Imperative code keeps its form:
- The text builders are methods with loops that append to a local string. Each is proved equal to a reference function, and the properties of the text (placeholder counts, optional clauses) are lemmas about that function.
- Objects whose fields change are classes. Their methods state the new fields and the exact calls appended to the driver log.
- A C++ exception becomes a `false` result (or a null object, for a constructor). The calls issued up to the failing one are stated with `Ran(before, after, calls, ok)`: the log grows by a prefix of `calls`, which is all of them exactly when `ok` holds.

## Model

| member | source | states |
|---|---|---|
| Connections.Connection.Open | src/connection.cpp:23-32 | allocates two fresh handles and issues: env alloc, ODBC 3, pooling off, dbc alloc, connect, autocommit off; it stops at the first failure and yields a connection exactly when all of them succeeded |
| Connections.ConnectCallsUseOwnHandles | src/connection.cpp:23-32 | the six constructor calls address only the constructor's own env and dbc handles, pass the connection string, and set no statement attribute nor end a transaction |
| Connections.Connection.IsDead | src/connection.cpp:40-47 | issues one connection-dead query; the result is "alive" only when the query succeeded and the driver reported SQL_CD_FALSE, so a failed query reads as dead |
| Connections.Transaction.Begin | src/connection.cpp:49-52 | a new guard owns the connection's handle |
| Connections.Transaction.Destroy | src/connection.cpp:54-60 | a guard that still owns a handle issues exactly one ROLLBACK on it; one that owns none issues nothing |
| Connections.Transaction.Move | src/connection.cpp:62-66 | the new guard takes the source's handle and the source owns none afterwards |
| Connections.Transaction.MoveAssign | src/connection.cpp:68-73 | the two guards exchange their handles |
| Connections.Transaction.Commit | src/connection.cpp:75-80 | issues one COMMIT; the handle is given up only when it succeeded; a guard that owns no handle always fails |
| Connections.CommitScope | src/connection.cpp:54-80 | begin, commit and destroy issue COMMIT alone when the commit succeeded, and COMMIT then ROLLBACK when it failed |
| Connections.MoveScope | src/connection.cpp:54-66 | after a move, destroying both guards issues exactly one ROLLBACK |
| Driver.Driver.RunAll | src/connection.cpp:13-19 | issues checked calls in order and stops at the first one that fails; `ok` says whether all of them ran |
| Statements.SignednessOnlyInCType | src/statement.cpp:55-63 | signed and unsigned integers of the same width share the SQL type and size and differ only in the C type |
| Statements.BindDescribesField | src/statement.cpp:87-133 | a bind passes the value's own address at the given slot; it passes an indicator exactly for Nullable values and strings, and then the value's own one; a Nullable<T> has T's types and size; a String<Size> is bound as CHAR/VARCHAR with element size 1 and length Size |
| Statements.Statement.Open | src/statement.cpp:76-80 | allocates a fresh handle and prepares the text, stopping at the first failure; a new statement has both counters 0 and no attributes set |
| Statements.Statement.BindParam | src/statement.cpp:212-228 | increments `param_` and then binds at slot `param_`, whether or not the driver accepts |
| Statements.Statement.BindCol | src/statement.cpp:230-242 | increments `col_` and then binds at slot `col_`, independently of `param_` |
| Statements.Statement.BindParams | include/typed_statement.hpp:150-153 | binds the fields in order at slots `param_ + 1`, `param_ + 2`, ..., stopping at the first failure; the counter advances by the number of binds issued |
| Statements.Statement.BindCols | include/typed_statement.hpp:150-153 | the same for columns and `col_` |
| Statements.Statement.RebindParams | src/statement.cpp:117-122 | `param_` is reset to 0 and nothing else changes |
| Statements.Statement.RebindCols | src/statement.cpp:154-159 | `col_` is reset to 0 and nothing else changes |
| Statements.RebindNumbersFromOne | src/statement.cpp:212-242 | after a rebind, field i of a struct is bound at slot i + 1 with its own address |
| Statements.Statement.Exec | src/statement.cpp:161-165 | issues close-cursor (outcome ignored) and then execute; the result is execute's verdict; statement attributes are unchanged |
| Statements.Statement.Fetch | src/statement.cpp:167-170 | one fetch; the result is the driver's verdict; a row count is written only on success and only when a rows-fetched buffer is registered, and it never exceeds the row-array size; it is positive when the row-array size is |
| Statements.Statement.BindParamArray | src/statement.cpp:182-186 | sets the bind type to the element size and then the paramset size to the count, stopping at the first failure; on success the paramset size is the count |
| Statements.Statement.BindColArray | src/statement.cpp:188-193 | sets the row bind type, the row-array size and the rows-fetched pointer, in that order; on success the row-array size is the count and the pointer is the caller's buffer |
| TypedStatements.TypedStatement.Open | include/typed_statement.hpp:140-180 | prepares, then binds the parameter fields, then the column fields, stopping at the first failure; the counters end at the field counts |
| TypedStatements.TypedStatement.Exec | include/typed_statement.hpp:182-186 | issues exactly the calls of `Statement::exec` |
| TypedStatements.TypedStatement.Fetch | include/typed_statement.hpp:188-193 | one fetch on its own statement, returning its verdict |
| TypedStatements.BulkParamStatement.Open | include/typed_statement.hpp:195-204 | prepares and binds nothing; the remembered binding starts as (null, 0) |
| TypedStatements.BulkParamStatement.Exec | include/typed_statement.hpp:206-211 | issues the parameter-array calls only when (data, size) differs from the remembered pair, then exec; after success the pair matches the vector; an unchanged pair is never rebound; after a bind the paramset size is the remembered size |
| TypedStatements.BulkParamStatement.BindParams | include/typed_statement.hpp:213-225 | binds the parameter array exactly when (data, size) differs from the remembered pair, and remembers the pair only when the driver accepted it |
| TypedStatements.BulkResultStatement.Open | include/typed_statement.hpp:227-253 | prepares and binds the parameters; the binding starts as (null, 0) with no rows-fetched buffer registered, and `rowsFetched_` holds an arbitrary value |
| TypedStatements.BulkResultStatement.OpenZeroed | include/typed_statement.hpp:227-253 | the same with `rowsFetched_` zeroed, which sets up the `Counted` invariant |
| TypedStatements.BulkResultStatement.Exec | include/typed_statement.hpp:255-262 | requires size == capacity; binds the row array (with the counter's address) only when (data, size) changed, then executes; after a bind the driver's row-array size is the vector size |
| TypedStatements.BulkResultStatement.BindCols | include/typed_statement.hpp:279-291 | binds the row array and the counter's address exactly when (data, size) differs from the remembered pair, remembers the pair only when the driver accepted it, and keeps the counter consistent with the driver's state |
| TypedStatements.BulkResultStatement.Fetch | include/typed_statement.hpp:264-277 | with a short vector it calls no driver function; it returns false and refills to capacity on a short vector or a failed fetch; otherwise it resizes to the count and returns count != 0; the heap block is kept, and the bound and synced invariants survive; on a bound, synced statement a false result always leaves the vector at full capacity, so `exec`'s size check holds again |
| TypedStatements.FetchFalseRestoresCapacity | include/typed_statement.hpp:264-277 | when a successful fetch on a full vector reports a positive count, and an unreported count is used only with a non-zero counter or an empty capacity, a false result leaves the full capacity |
| TypedStatements.FetchStepOutcome | include/typed_statement.hpp:264-277 | `true` exactly when the vector was full, the driver succeeded and the batch is non-empty; a false result leaves the full capacity except after an empty successful fetch; a batch never exceeds the driver's count |
| TypedStatements.BatchesShape | test/test_db.cpp:77-99 | the batches a driver delivers for k rows sum to k, lie in 1..F, and all but the last are full |
| TypedStatements.DrainFetches | test/test_db.cpp:77-99 | draining k rows through a row array of F gives one true fetch per batch with exactly its rows, then false with the vector back at capacity |
| TypedStatements.DrainFiveHundredTwelve | test/test_db.cpp:77-99 | 512 rows and F = 128 give four true fetches of 128 rows, then false |
| TypedStatements.StaleCounterQuirk | include/typed_statement.hpp:134-135 | for a never-allocated vector, a successful fetch resizes to the stale `rowsFetched_` (5 rows) and returns true |
| TypedStatements.ZeroedCounterFetch | include/typed_statement.hpp:134-135 | with the counter zeroed, the same fetch leaves the vector empty and returns false |
| Types.Assign | src/types.cpp:13-21 | copies exactly `src_ind` bytes when it is positive and otherwise leaves the buffer alone; the indicator is always copied |
| Types.AssignString | src/types.cpp:23-28 | copies all bytes of the string over the buffer's front; the indicator is the length |
| Types.Compare | src/types.cpp:30-38 | false when either side is NULL; otherwise the first min(lhs_ind, rhs_ind) bytes are equal |
| Types.CompareIsPrefixRelation | src/types.cpp:30-48 | for non-NULL values, compare holds exactly when one `str` is a prefix of the other |
| Types.ComparePrefixQuirk | src/types.cpp:37 | "abc" compares equal to "abcdef" although their texts differ |
| Types.Str | src/types.cpp:40-48 | "" for NULL, otherwise exactly `ind` characters |
| Types.StrAfterAssignString | src/types.cpp:23-48 | `str` after the string `assign` gives back the original string |
| Types.CStr | src/types.cpp:50-59 | null for NULL and nothing written; otherwise a terminator at `val[ind]` with every other byte unchanged, and the buffer is returned |
| Types.CStrReadsAsStr | src/types.cpp:40-59 | a C reader of `c_str`'s buffer sees exactly `str`, provided the value holds no NUL |
| Text.PadDecimalRoundTrip | src/types.cpp:78-87 | a zero-padded field of a value that fits its width is all digits and reads back as the value |
| Types.TimestampStrLayout | src/types.cpp:78-87 | when every field fits its width, the text is 24 characters with `- - T : : . Z` at fixed offsets, and each field's digits read back as that field |
| Types.EpochStr | test/test_types.cpp:7-14 | the epoch renders as 1970-01-01T00:00:00.000Z |
| ColumnDefinitions.ConstraintIsNullability | include/column_definition.hpp:33-143 | the constraint is "NULL" exactly for Nullable types and "NOT NULL" for all others |
| ColumnDefinitions.NullableInheritsDefinition | include/column_definition.hpp:137-143 | Nullable<T> is defined exactly when T is and has T's type and size |
| ColumnDefinitions.SizeOnlyForSizedTypes | include/column_definition.hpp:113-127 | String<Size> is VARCHAR(Size) and Number<Size> is NUMBER(Size); all other types have size 0 |
| ColumnDefinitions.UnsignedNames | include/column_definition.hpp:65-95 | each unsigned type's name is its signed counterpart's followed by " UNSIGNED" |
| ColumnDefinitions.DefinedUnlessBool | include/column_definition.hpp:33-143 | every type except bool, Nullable or not, has a definition |
| CreateTables.FlagsAreDistinctBits | include/create_table.hpp:14-16 | the three flags are pairwise disjoint non-zero bits, and setting one does not change another |
| CreateTables.NullableColumnType | include/create_table.hpp:43 | a Nullable column has its inner type's name |
| CreateTables.StringColumnType | include/create_table.hpp:41 | every String<Size> is TEXT, whatever the size |
| CreateTables.DefineColumn | src/create_table.cpp:38-53 | appends ", " exactly when the column is not first, then name, one space and type, then " PRIMARY KEY" only for a first column asked to be the key |
| CreateTables.DefinitionExtends | src/create_table.cpp:38-53 | defining k + 1 columns extends the text of k by exactly the next column's clause |
| CreateTables.DefineColumns | include/create_table.hpp:50-73 | column i gets the i-th name and its type, with `first` only for i = 0; the result is the clauses joined by ", " |
| CreateTables.DropTableIfExists | src/create_table.cpp:10-18 | prepares and executes exactly "DROP TABLE IF EXISTS name;" |
| CreateTables.CreateTableStatement | src/create_table.cpp:20-36 | prepares and executes "CREATE [TEMPORARY ]TABLE name (definition);", with TEMPORARY exactly when asked |
| CreateTables.CreateTable | include/create_table.hpp:77-89 | drops first only when the drop bit is set; the key comes only from the primary-key bit and temporariness only from the temporary bit; stops at the first failure |
| Tables.RunStatement | src/table.cpp:93 | prepares the text on a fresh handle and executes it |
| Tables.CreateStatement | src/table.cpp:43-91 | the CREATE text: TEMPORARY only if asked, one piece per column in order, and a PRIMARY KEY clause of the named key columns only for a non-empty key |
| Tables.ColumnPiece | src/table.cpp:61-71 | name and type, then "(size)" only for a non-zero size, then the constraint only when present |
| Tables.AppendColumns | src/table.cpp:54-72 | the column pieces in order, separated by ", " |
| Tables.AppendPrimaryKey | src/table.cpp:74-89 | nothing for an empty key, otherwise ", PRIMARY KEY (" with the key's names in order, joined by ", " |
| Tables.Create | src/table.cpp:34-94 | runs exactly the CREATE text of its arguments |
| Tables.Drop | src/table.cpp:96-114 | runs "DROP TABLE [IF EXISTS ]name" |
| Tables.AppendWhere | src/table.cpp:138-151 | nothing for an empty key, otherwise " WHERE " and "name = ?" per key column joined by " AND " |
| Tables.Select | src/table.cpp:116-154 | every column name in declared order joined by ", ", then " FROM " and the table, then the WHERE clause |
| Tables.Insert | src/table.cpp:156-190 | every column name in order, then one "?" per column joined by ", " |
| Tables.Update | src/table.cpp:192-229 | one "name = ?" per value index, in the given order, then the WHERE clause |
| Tables.Delete | src/table.cpp:231-257 | "DELETE FROM table" then the WHERE clause |
| Tables.SelectDeleteMarks | src/table.cpp:116-154 | with no "?" in the names, SELECT and DELETE hold exactly one placeholder per key column |
| Tables.UpdateMarks | src/table.cpp:192-229 | UPDATE holds exactly |value| + |key| placeholders |
| Tables.InsertMarks | src/table.cpp:156-190 | INSERT holds exactly one placeholder per column |
| Tables.CreateTemporaryIff | src/table.cpp:45-52 | the CREATE text starts with "CREATE TEMPORARY " exactly when temporary |
| Tables.DropIfExistsIff | src/table.cpp:104-111 | the DROP text names IF EXISTS exactly when asked |
| StagedStatements.DeleteFrom | src/staged_statement.cpp:28-35 | exactly "DELETE FROM " + table |
| StagedStatements.DeleteFromIsUnkeyedDelete | src/staged_statement.cpp:28-35 | the staging DELETE is the table builder's DELETE with an empty key |
| StagedStatements.InsertInto | src/staged_statement.cpp:37-69 | "INSERT INTO t (names joined by ", ") VALUES (one "?" per name)" with no semicolon; the same text as the table builder's INSERT |
| StagedStatements.InsertIntoNoColumns | src/staged_statement.cpp:37-69 | no columns yield "INSERT INTO t () VALUES ()" |
| StagedStatements.Stamped | include/staged_statement.hpp:83-86 | row i carries index i and keeps its parameters |
| StagedStatements.StampedIdempotent | include/staged_statement.hpp:78-92 | numbering twice equals numbering once |
| StagedStatements.StagedExecOrder | include/staged_statement.hpp:88-91 | the staging DELETE runs first and the main statement last, with the insert's array binding only right before the insert |
| StagedStatements.StagedStatement.Open | include/staged_statement.hpp:45-52 | creates the staging table (dropped first, temporary, keyed by its first column), then prepares DELETE, INSERT and the main statement in that order, stopping at the first failure |
| StagedStatements.StagedStatement.CreateStaging | include/staged_statement.hpp:47 | issues the CreateTable calls for the index column and the payload columns, with the staging flags |
| StagedStatements.StagedStatement.Prepare | include/staged_statement.hpp:48-50 | prepares the three statements on consecutive handles; no rows are staged and nothing is bound |
| StagedStatements.StagedStatement.ResizeStagedParams | include/staged_statement.hpp:54-58 | a non-negative size resizes the staged rows to that length, keeping the rows in front; a negative one fails and changes nothing |
| StagedStatements.StagedStatement.StagedParams | include/staged_statement.hpp:60-64 | row i's parameters, never its index |
| StagedStatements.StagedStatement.SetStagedParams | include/staged_statement.hpp:60-64 | writing through `stagedParams(i)` changes only row i's parameters |
| StagedStatements.StagedStatement.StampRows | include/staged_statement.hpp:81-86 | the loop leaves the rows equal to `Stamped` of the old rows |
| StagedStatements.StagedStatement.RunStatements | include/staged_statement.hpp:88-91 | delete exec, insert exec, main exec, in that order, stopping at the first failure |
| StagedStatements.StagedStatement.Exec | include/staged_statement.hpp:78-92 | numbers the rows and then issues exactly the ordered calls; only the index fields change |
| StagedStatements.StagedStatement.Fetch | include/staged_statement.hpp:94-98 | one fetch on the main statement alone |
| StagedStatements.StagedStatement.ExecTwice | test/test_staged_stmt.cpp:67-68 | exec can run twice; the numbering stays, and after a successful first run the second binds nothing |

## Left out

- The driver's verdicts, row counts and connection-dead value are arbitrary choices, except for the following ODBC rules, which the model takes as given:
  - `Driver.Driver.Invoke`: SQLEndTran on a null connection handle always fails, since the driver manager answers SQL_INVALID_HANDLE. `Connections.Transaction.Commit`'s promise that a guard owning no handle fails rests on this.
  - `Driver.Driver.FetchRows`: SQLFetch writes the rows-fetched count only when it succeeds and a rows-fetched buffer is registered. The count never exceeds the row-array size in force, and it is at least 1 when that size is positive, because the end of the data is SQL_NO_DATA, which is not a success.
  - `Driver.RowArraySizeOf`: a statement whose row-array size was never set fetches one row at a time, the ODBC default.
  - `Driver.Driver.ConnectionDeadAttr`: the SQL_ATTR_CONNECTION_DEAD query writes the caller's buffer only when it succeeds.
- Handle freeing and the destructors of `Connection` and `Statement` (`SQLFreeHandle`, disconnect) are left out; they issue no checked call.
- The `Exception` class and its diagnostic text (`SQLGetDiagRec`, `what()`) are left out. An exception is modelled as a `false` result or a null object.
- The connection pools, the per-thread session of `database.hpp`, `StatementCache` and the `Table` template with its `table.ipp` bodies, and `result_set.hpp` are not part of this model. They are concurrency code or declarations without bodies.
- `StagedStatement::params()` and `cols()` (include/staged_statement.hpp:23-24, 69-79) are left out. They forward to `params()` and `cols()` accessors of `TypedStatement` that include/typed_statement.hpp does not declare.
- include/staged_statement.hpp was written against another revision of include/typed_statement.hpp, and the model reads its uses as follows:
  - `TypedStatement< std::tuple<>, std::tuple<> >` and the `std::tuple<>` column type of the insert statement (lines 32-33) are read as the `None` shapes, i.e. no parameters and no columns.
  - The insert statement is constructed without a vector (line 49), while the shown bulk-parameter statement refers to a caller's vector (include/typed_statement.hpp:100). The model gives it a fresh, empty vector of its own, which `resizeStagedParams`, `stagedParams` and `exec` then work on through `params()`.
- The struct-wide `Statement::bindParams` and `Statement::bindCols` are not defined in the shown sources. They are modelled as binding each field in order, using the same per-field binds.
- `Nullable< String< Size > >` binds are declared in `statement.hpp` but never defined, so they are not bindable in this model.
- `statement.cpp` defines `int8_t` and `uint8_t` binds, plain and `Nullable`, that `statement.hpp` does not declare. The model treats them like the other integer widths and does not capture that callers cannot reach them.
- The `StagedStatement` constructor passes a primary-key list `{ 0 }` to a `CreateTable` constructor that takes only flags. The model reads it as `FIRST_COLUMN_IS_PRIMARY_KEY`, so the staging flags are DROP_TABLE_IF_EXISTS | TEMPORARY_TABLE | FIRST_COLUMN_IS_PRIMARY_KEY.
- `Connections.Transaction.Destroy`: a ROLLBACK failure in the destructor would throw out of a destructor and end the program. The model returns `false` instead.
- `Connections.Connection.IsDead`: the driver is assumed to write the caller's buffer only when the query succeeds.
- `TypedStatements.BulkResultStatement.Open`: the arbitrary initial `rowsFetched_` is modelled as a natural number. A negative garbage value, which `resize` would turn into a huge size, is not modelled.
- `TypedStatements.BulkResultStatement.Exec`: the `assert` on size == capacity is modelled as a precondition.
- `StagedStatements.StagedStatement.ResizeStagedParams`: a negative `int32_t` size converts to an unsigned size larger than any vector can hold, so `resize` throws. The model returns `false` and leaves the rows unchanged.
- Float and double formatting, `Number` conversions, `fromTime_t`/`toTime_t` and the `bool` column type of `CreateTable` (which has no `ColumnType`) are left out.
- `Types.TimestampStrLayout` states the layout only for fields that fit their widths. A wider field simply prints more digits, as `%04d` does. A negative year is rendered as a minus sign followed by the zero-padded magnitude.
- The compile-time machinery (`EnableIf` overload selection, deleted rvalue overloads, the `OdbcTraits` macro) is represented only by its outcome: which types are bindable and their C and SQL types and sizes.

## Findings

| source | as written | input that shows it | evidently intended | confidence | as-written member | corrected member |
|---|---|---|---|---|---|---|
| include/typed_statement.hpp:135 | `rowsFetched_` is never initialised. `binding_` starts as `{ nullptr, 0 }`, which is exactly the pair of a vector that never allocated, so such a vector is never bound and no rows-fetched buffer is registered. `fetch` then resizes the vector to the uninitialised counter. | An empty vector of capacity 0 with a counter holding 5, and a successful `SQLFetch`: `fetch` returns true with 5 default rows (`FetchStep(0, 0, 5, Reply(true, None)) == FetchResult(5, true, 5)`) | `rowsFetched_` starts at 0, so that fetch returns false and leaves the vector empty | not executed; high that the counter is uninitialised, medium that a driver reports success here | TypedStatements.BulkResultStatement.Open | TypedStatements.BulkResultStatement.OpenZeroed |
