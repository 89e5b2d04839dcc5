/**
 * `Statement`: a prepared ODBC statement handle plus two running counters,
 * the next parameter and the next column number to bind. Every bind call
 * advances its counter before the driver is asked, so the n-th bind after a
 * rebind always targets placeholder or column n.
 */
module Statements {
  import opened Driver
  import opened Values

  // ---------------------------------------------------------------------
  // OdbcTraits

  /** The types with an OdbcTraits specialisation. */
  predicate HasTraits(t: ValueType)
  {
    t.Int8? || t.Int16? || t.Int32? || t.Int64? || t.UInt8? || t.UInt16? || t.UInt32? || t.UInt64?
    || t.Float? || t.Double? || t.Bool? || t.Timestamp?
  }

  function CTypeOf(t: ValueType): CType
    requires HasTraits(t)
  {
    match t
    case Int8 => CSTinyInt
    case Int16 => CSShort
    case Int32 => CSLong
    case Int64 => CSBigInt
    case UInt8 => CUTinyInt
    case UInt16 => CUShort
    case UInt32 => CULong
    case UInt64 => CUBigInt
    case Float => CFloat
    case Double => CDouble
    case Bool => CBit
    case Timestamp => CTimestamp
  }

  function SqlTypeOf(t: ValueType): SqlType
    requires HasTraits(t)
  {
    match t
    case Int8 => TinyInt
    case Int16 => SmallInt
    case Int32 => Integer
    case Int64 => BigInt
    case UInt8 => TinyInt
    case UInt16 => SmallInt
    case UInt32 => Integer
    case UInt64 => BigInt
    case Float => SqlType.Float
    case Double => SqlType.Double
    case Bool => TinyInt
    case Timestamp => SqlType.Timestamp
  }

  /** `sizeof` of the C++ type, which the traits require to equal the ODBC typedef's. */
  function SizeOf(t: ValueType): nat
    requires HasTraits(t)
  {
    match t
    case Int8 => 1
    case Int16 => 2
    case Int32 => 4
    case Int64 => 8
    case UInt8 => 1
    case UInt16 => 2
    case UInt32 => 4
    case UInt64 => 8
    case Float => 4
    case Double => 8
    case Bool => 1
    case Timestamp => 16
  }

  /** Signed and unsigned integers of one width share the SQL type and the size and differ in the C type. */
  lemma SignednessOnlyInCType(s: ValueType, u: ValueType)
    requires (s, u) in {(Int8, UInt8), (Int16, UInt16), (Int32, UInt32), (Int64, UInt64)}
    ensures HasTraits(s) && HasTraits(u)
    ensures SqlTypeOf(s) == SqlTypeOf(u) && SizeOf(s) == SizeOf(u) && CTypeOf(s) != CTypeOf(u)
  {
  }

  // ---------------------------------------------------------------------
  // What one bind hands to the driver

  /**
   * The types `bindParam` and `bindCol` accept: a type with traits, its
   * `Nullable`, or a `String< Size >`.
   */
  predicate Bindable(t: ValueType)
  {
    HasTraits(t) || t.String? || (t.Nullable? && HasTraits(t.inner))
  }

  /** A bound C++ object: its type, the address of its value and of its length indicator. */
  datatype Field = Field(ty: ValueType, data: Addr, indicator: Addr)

  /** The SQLBindParameter call for binding `f` as parameter `slot` of statement `h`. */
  function ParamCall(h: nat, slot: nat, f: Field): Call
    requires Bindable(f.ty)
  {
    match f.ty
    case String(n) => BindParameter(h, slot, CChar, VarChar, n, f.data, 1, Some(f.indicator))
    case Nullable(t) => BindParameter(h, slot, CTypeOf(t), SqlTypeOf(t), 0, f.data, SizeOf(t), Some(f.indicator))
    case _ => BindParameter(h, slot, CTypeOf(f.ty), SqlTypeOf(f.ty), 0, f.data, SizeOf(f.ty), None)
  }

  /** The SQLBindCol call for binding `f` as column `slot` of statement `h`. */
  function ColCall(h: nat, slot: nat, f: Field): Call
    requires Bindable(f.ty)
  {
    match f.ty
    case String(n) => BindCol(h, slot, CChar, f.data, n, Some(f.indicator))
    case Nullable(t) => BindCol(h, slot, CTypeOf(t), f.data, SizeOf(t), Some(f.indicator))
    case _ => BindCol(h, slot, CTypeOf(f.ty), f.data, SizeOf(f.ty), None)
  }

  /**
   * What a bind promises the driver: the value's own address at the given
   * number, an indicator exactly for nullable values and strings, and for a
   * `Nullable< T >` the very types and size a plain `T` would use; a
   * `String< Size >` goes as characters of one byte, `Size` of them.
   */
  lemma BindDescribesField(h: nat, slot: nat, f: Field)
    requires Bindable(f.ty)
    ensures var p, c := ParamCall(h, slot, f), ColCall(h, slot, f);
      && p.BindParameter? && p.stmt == h && p.slot == slot && p.data == f.data
      && c.BindCol? && c.stmt == h && c.slot == slot && c.data == f.data
      && (p.indicator.Some? <==> !HasTraits(f.ty)) && (c.indicator.Some? <==> !HasTraits(f.ty))
      && (p.indicator.Some? ==> p.indicator.value == f.indicator) && (c.indicator.Some? ==> c.indicator.value == f.indicator)
    ensures f.ty.Nullable? ==>
      var p, q := ParamCall(h, slot, f), ParamCall(h, slot, Field(f.ty.inner, f.data, f.indicator));
      var c, d := ColCall(h, slot, f), ColCall(h, slot, Field(f.ty.inner, f.data, f.indicator));
      && p.cType == q.cType && p.sqlType == q.sqlType && p.length == q.length && p.size == q.size
      && c.cType == d.cType && c.size == d.size && q.indicator.None? && d.indicator.None?
    ensures f.ty.String? ==>
      var p, c := ParamCall(h, slot, f), ColCall(h, slot, f);
      && p.cType == CChar && p.sqlType == VarChar && p.length == f.ty.size && p.size == 1
      && c.cType == CChar && c.size == f.ty.size
  {
  }

  /** The binds of `fields` as parameters `first + 1`, `first + 2`, ... */
  function ParamCalls(h: nat, first: nat, fields: seq<Field>): seq<Call>
    requires forall i :: 0 <= i < |fields| ==> Bindable(fields[i].ty)
  {
    seq(|fields|, i requires 0 <= i < |fields| => ParamCall(h, first + i + 1, fields[i]))
  }

  /** The binds of `fields` as columns `first + 1`, `first + 2`, ... */
  function ColCalls(h: nat, first: nat, fields: seq<Field>): seq<Call>
    requires forall i :: 0 <= i < |fields| ==> Bindable(fields[i].ty)
  {
    seq(|fields|, i requires 0 <= i < |fields| => ColCall(h, first + i + 1, fields[i]))
  }

  /** The calls `exec` makes: the cursor is closed (result ignored), then the statement runs. */
  function ExecCalls(h: nat): seq<Call>
  {
    [CloseCursor(h), Execute(h)]
  }

  function ParamArrayCalls(h: nat, elemSize: nat, count: nat): seq<Call>
  {
    [SetStmtAttr(h, ParamBindType, elemSize), SetStmtAttr(h, ParamsetSize, count)]
  }

  function ColArrayCalls(h: nat, elemSize: nat, count: nat, rowsFetched: Addr): seq<Call>
  {
    [SetStmtAttr(h, RowBindType, elemSize), SetStmtAttr(h, RowArraySize, count), SetStmtAttr(h, RowsFetchedPtr, rowsFetched)]
  }

  // ---------------------------------------------------------------------
  // Statement

  class Statement {
    const driver: Driver
    const handle: nat
    /** The number of the last parameter bound (`param_`). */
    var param: nat
    /** The number of the last column bound (`col_`). */
    var col: nat

    constructor Prepared(driver: Driver, handle: nat)
      ensures this.driver == driver && this.handle == handle && param == 0 && col == 0
    {
      this.driver, this.handle := driver, handle;
      param, col := 0, 0;
    }

    /**
     * `Statement( conn, stmt )`: allocates a statement handle on connection
     * `dbc` and prepares `sql`; null stands for the exception thrown at the
     * first failing call.
     */
    static method Open(driver: Driver, dbc: nat, sql: string) returns (s: Statement?)
      modifies driver
      ensures driver.nextHandle == old(driver.nextHandle) + 1
      ensures Ran(old(driver.log), driver.log, [AllocStmt(dbc, old(driver.nextHandle)), Prepare(old(driver.nextHandle), sql)], s != null)
      ensures s != null ==> fresh(s) && s.driver == driver && s.handle == old(driver.nextHandle) && s.param == 0 && s.col == 0
      ensures s != null ==> s.handle < driver.nextHandle
      ensures old(driver.Valid()) ==> driver.Valid() && forall attr :: AttrOf(driver.log, old(driver.nextHandle), attr).None?
    {
      var h := driver.NewHandle();
      forall attr | old(driver.Valid()) {
        FreshHandleHasNoAttrs(old(driver.log), h, h, attr);
      }
      AppendedNothing(driver.log);
      var ok := driver.Invoke(AllocStmt(dbc, h));
      RanSnoc(old(driver.log), old(driver.log), [], AllocStmt(dbc, h), ok);
      if !ok {
        RanFailedExtends(old(driver.log), driver.log, [AllocStmt(dbc, h)], [Prepare(h, sql)]);
        return null;
      }
      ghost var mid := driver.log;
      ok := driver.Invoke(Prepare(h, sql));
      RanSnoc(old(driver.log), mid, [AllocStmt(dbc, h)], Prepare(h, sql), ok);
      ghost var more := [Event(AllocStmt(dbc, h), true), Event(Prepare(h, sql), ok)];
      assert driver.log == old(driver.log) + more;
      forall attr
        ensures AttrOf(driver.log, h, attr) == AttrOf(old(driver.log), h, attr)
      {
        AttrsKept(old(driver.log), more, h, attr);
      }
      if !ok {
        return null;
      }
      s := new Statement.Prepared(driver, h);
    }

    /**
     * `doBindParam`: the parameter number is incremented before the driver
     * is asked, so it advances even when the bind fails.
     */
    method BindParam(f: Field) returns (ok: bool)
      requires Bindable(f.ty)
      modifies this`param, driver`log
      ensures param == old(param) + 1
      ensures driver.log == old(driver.log) + [Event(ParamCall(handle, param, f), ok)]
      ensures forall attr :: AttrOf(driver.log, handle, attr) == AttrOf(old(driver.log), handle, attr)
      ensures old(driver.Valid()) ==> driver.Valid()
    {
      param := param + 1;
      ok := driver.Invoke(ParamCall(handle, param, f));
      forall attr {
        AttrsKept(old(driver.log), [Event(ParamCall(handle, param, f), ok)], handle, attr);
      }
    }

    /** `doBindCol`: like `BindParam`, with the column number. */
    method BindCol(f: Field) returns (ok: bool)
      requires Bindable(f.ty)
      modifies this`col, driver`log
      ensures col == old(col) + 1
      ensures driver.log == old(driver.log) + [Event(ColCall(handle, col, f), ok)]
      ensures forall attr :: AttrOf(driver.log, handle, attr) == AttrOf(old(driver.log), handle, attr)
      ensures old(driver.Valid()) ==> driver.Valid()
    {
      col := col + 1;
      ok := driver.Invoke(ColCall(handle, col, f));
      forall attr {
        AttrsKept(old(driver.log), [Event(ColCall(handle, col, f), ok)], handle, attr);
      }
    }

    /**
     * Binds each field of a parameter struct in order, stopping at the first
     * failure. The counter ends up advanced by the number of binds issued.
     */
    method BindParams(fields: seq<Field>) returns (ok: bool)
      requires forall i :: 0 <= i < |fields| ==> Bindable(fields[i].ty)
      modifies this`param, driver`log
      ensures Ran(old(driver.log), driver.log, ParamCalls(handle, old(param), fields), ok)
      ensures param == old(param) + |driver.log| - |old(driver.log)|
      ensures forall attr :: AttrOf(driver.log, handle, attr) == AttrOf(old(driver.log), handle, attr)
      ensures old(driver.Valid()) ==> driver.Valid()
    {
      ghost var log0, p0 := driver.log, param;
      AppendedNothing(log0);
      ok := true;
      var i := 0;
      while i < |fields|
        invariant 0 <= i <= |fields| && param == p0 + i && |driver.log| == |log0| + i
        invariant Ran(log0, driver.log, ParamCalls(handle, p0, fields[..i]), true)
        invariant forall attr :: AttrOf(driver.log, handle, attr) == AttrOf(log0, handle, attr)
        invariant old(driver.Valid()) ==> driver.Valid()
      {
        ghost var before := driver.log;
        ok := BindParam(fields[i]);
        assert ParamCalls(handle, p0, fields[..i + 1]) == ParamCalls(handle, p0, fields[..i]) + [ParamCall(handle, param, fields[i])];
        RanSnoc(log0, before, ParamCalls(handle, p0, fields[..i]), ParamCall(handle, param, fields[i]), ok);
        if !ok {
          var all := ParamCalls(handle, p0, fields);
          assert ParamCalls(handle, p0, fields[..i + 1]) == all[..i + 1];
          RanFailedExtends(log0, driver.log, all[..i + 1], all[i + 1..]);
          assert all[..i + 1] + all[i + 1..] == all;
          return;
        }
        i := i + 1;
      }
      assert fields[..i] == fields;
    }

    /** Binds each field of a column struct in order, stopping at the first failure. */
    method BindCols(fields: seq<Field>) returns (ok: bool)
      requires forall i :: 0 <= i < |fields| ==> Bindable(fields[i].ty)
      modifies this`col, driver`log
      ensures Ran(old(driver.log), driver.log, ColCalls(handle, old(col), fields), ok)
      ensures col == old(col) + |driver.log| - |old(driver.log)|
      ensures forall attr :: AttrOf(driver.log, handle, attr) == AttrOf(old(driver.log), handle, attr)
      ensures old(driver.Valid()) ==> driver.Valid()
    {
      ghost var log0, c0 := driver.log, col;
      AppendedNothing(log0);
      ok := true;
      var i := 0;
      while i < |fields|
        invariant 0 <= i <= |fields| && col == c0 + i && |driver.log| == |log0| + i
        invariant Ran(log0, driver.log, ColCalls(handle, c0, fields[..i]), true)
        invariant forall attr :: AttrOf(driver.log, handle, attr) == AttrOf(log0, handle, attr)
        invariant old(driver.Valid()) ==> driver.Valid()
      {
        ghost var before := driver.log;
        ok := BindCol(fields[i]);
        assert ColCalls(handle, c0, fields[..i + 1]) == ColCalls(handle, c0, fields[..i]) + [ColCall(handle, col, fields[i])];
        RanSnoc(log0, before, ColCalls(handle, c0, fields[..i]), ColCall(handle, col, fields[i]), ok);
        if !ok {
          var all := ColCalls(handle, c0, fields);
          assert ColCalls(handle, c0, fields[..i + 1]) == all[..i + 1];
          RanFailedExtends(log0, driver.log, all[..i + 1], all[i + 1..]);
          assert all[..i + 1] + all[i + 1..] == all;
          return;
        }
        i := i + 1;
      }
      assert fields[..i] == fields;
    }

    /** `rebindParams`: the next parameter bound is number 1 again. */
    method RebindParams()
      modifies this`param
      ensures param == 0
    {
      param := 0;
    }

    /** `rebindCols`: the next column bound is number 1 again. */
    method RebindCols()
      modifies this`col
      ensures col == 0
    {
      col := 0;
    }

    /** `exec`: closes any open cursor, ignoring the outcome, then executes; only the latter is checked. */
    method Exec() returns (ok: bool)
      modifies driver`log
      ensures Appended(old(driver.log), driver.log, ExecCalls(handle))
      ensures ok == driver.log[|driver.log| - 1].ok
      ensures forall attr :: AttrOf(driver.log, handle, attr) == AttrOf(old(driver.log), handle, attr)
      ensures old(driver.Valid()) ==> driver.Valid()
    {
      var closed := driver.Invoke(CloseCursor(handle));
      ok := driver.Invoke(Execute(handle));
      var more := [Event(CloseCursor(handle), closed), Event(Execute(handle), ok)];
      assert driver.log == old(driver.log) + more;
      assert driver.log[|old(driver.log)|..] == more;
      forall attr {
        AttrsKept(old(driver.log), more, handle, attr);
      }
    }

    /**
     * `fetch`: whether SQLFetch succeeded; `written` is what the driver
     * stored in the registered rows-fetched buffer, if it stored anything.
     */
    method Fetch() returns (ok: bool, written: Option<nat>)
      modifies driver`log
      ensures written.Some? <==> ok && RowsFetchedPtrOf(old(driver.log), handle).Some?
      ensures written.Some? ==> written.value <= RowArraySizeOf(old(driver.log), handle)
      ensures written.Some? && RowArraySizeOf(old(driver.log), handle) > 0 ==> written.value > 0
      ensures driver.log == old(driver.log) + [Event(Call.Fetch(handle, written), ok)]
      ensures forall attr :: AttrOf(driver.log, handle, attr) == AttrOf(old(driver.log), handle, attr)
      ensures old(driver.Valid()) ==> driver.Valid()
    {
      ok, written := driver.FetchRows(handle);
      forall attr {
        AttrsKept(old(driver.log), [Event(Call.Fetch(handle, written), ok)], handle, attr);
      }
    }

    /** `doBindParamArray`: row-wise parameter arrays of `count` elements of `elemSize` bytes. */
    method BindParamArray(elemSize: nat, count: nat) returns (ok: bool)
      modifies driver`log
      ensures Ran(old(driver.log), driver.log, ParamArrayCalls(handle, elemSize, count), ok)
      ensures ok ==> AttrOf(driver.log, handle, ParamsetSize) == Some(count)
      ensures !ok ==> AttrOf(driver.log, handle, ParamsetSize) == AttrOf(old(driver.log), handle, ParamsetSize)
      ensures old(driver.Valid()) && handle < driver.nextHandle ==> driver.Valid()
    {
      AppendedNothing(driver.log);
      ok := driver.Invoke(SetStmtAttr(handle, ParamBindType, elemSize));
      RanSnoc(old(driver.log), old(driver.log), [], SetStmtAttr(handle, ParamBindType, elemSize), ok);
      AttrAfterSet(old(driver.log), handle, ParamBindType, elemSize, ok, ParamsetSize);
      if !ok {
        RanFailedExtends(old(driver.log), driver.log, [SetStmtAttr(handle, ParamBindType, elemSize)], [SetStmtAttr(handle, ParamsetSize, count)]);
        return;
      }
      ghost var mid := driver.log;
      ok := driver.Invoke(SetStmtAttr(handle, ParamsetSize, count));
      RanSnoc(old(driver.log), mid, [SetStmtAttr(handle, ParamBindType, elemSize)], SetStmtAttr(handle, ParamsetSize, count), ok);
      AttrAfterSet(mid, handle, ParamsetSize, count, ok, ParamsetSize);
    }

    /**
     * `doBindColArray`: row-wise column arrays of `count` rows of `elemSize`
     * bytes, with the fetched-row count written to `rowsFetched`. On success
     * the driver's row-array size is `count`.
     */
    method BindColArray(elemSize: nat, count: nat, rowsFetched: Addr) returns (ok: bool)
      modifies driver`log
      ensures Ran(old(driver.log), driver.log, ColArrayCalls(handle, elemSize, count, rowsFetched), ok)
      ensures ok ==> RowArraySizeOf(driver.log, handle) == count
      ensures RowsFetchedPtrOf(driver.log, handle) == if ok then Some(rowsFetched) else RowsFetchedPtrOf(old(driver.log), handle)
      ensures old(driver.Valid()) && handle < driver.nextHandle ==> driver.Valid()
    {
      var c1, c2, c3 := SetStmtAttr(handle, RowBindType, elemSize), SetStmtAttr(handle, RowArraySize, count), SetStmtAttr(handle, RowsFetchedPtr, rowsFetched);
      AppendedNothing(driver.log);
      ok := driver.Invoke(c1);
      RanSnoc(old(driver.log), old(driver.log), [], c1, ok);
      AttrAfterSet(old(driver.log), handle, RowBindType, elemSize, ok, RowsFetchedPtr);
      if !ok {
        RanFailedExtends(old(driver.log), driver.log, [c1], [c2, c3]);
        return;
      }
      ghost var mid1 := driver.log;
      ok := driver.Invoke(c2);
      RanSnoc(old(driver.log), mid1, [c1], c2, ok);
      AttrAfterSet(mid1, handle, RowArraySize, count, ok, RowsFetchedPtr);
      if !ok {
        RanFailedExtends(old(driver.log), driver.log, [c1, c2], [c3]);
        return;
      }
      ghost var mid2 := driver.log;
      ok := driver.Invoke(c3);
      RanSnoc(old(driver.log), mid2, [c1, c2], c3, ok);
      AttrAfterSet(mid1, handle, RowArraySize, count, true, RowArraySize);
      AttrAfterSet(mid2, handle, RowsFetchedPtr, rowsFetched, ok, RowArraySize);
      AttrAfterSet(mid2, handle, RowsFetchedPtr, rowsFetched, ok, RowsFetchedPtr);
    }
  }

  /**
   * Rebinding and then binding a struct numbers its fields 1, 2, ... in
   * order: field i goes to placeholder (or column) i + 1 whatever was bound
   * before.
   */
  lemma RebindNumbersFromOne(h: nat, fields: seq<Field>)
    requires forall i :: 0 <= i < |fields| ==> Bindable(fields[i].ty)
    ensures forall i :: 0 <= i < |fields| ==> ParamCalls(h, 0, fields)[i].slot == i + 1 && ColCalls(h, 0, fields)[i].slot == i + 1
    ensures forall i :: 0 <= i < |fields| ==> ParamCalls(h, 0, fields)[i].data == fields[i].data && ColCalls(h, 0, fields)[i].data == fields[i].data
  {
    forall i | 0 <= i < |fields|
      ensures ParamCalls(h, 0, fields)[i].slot == i + 1 && ColCalls(h, 0, fields)[i].slot == i + 1
      ensures ParamCalls(h, 0, fields)[i].data == fields[i].data && ColCalls(h, 0, fields)[i].data == fields[i].data
    {
      BindDescribesField(h, i + 1, fields[i]);
    }
  }
}
