/**
 * `TypedStatement< Params, Cols >` in its three forms: scalar parameter and
 * column structs bound once at construction; a vector of parameter sets
 * bound as a parameter array; and a vector of result rows bound as a row
 * array that each fetch fills with one batch.
 *
 * The array forms remember the (data pointer, size) pair they last bound
 * and only go back to the driver when the vector has moved or changed size.
 */
module TypedStatements {
  import opened Driver
  import opened Values
  import opened Statements
  import opened Vectors

  /** The calls the statement constructor makes for a fresh handle `h`. */
  function OpenCalls(dbc: nat, h: nat, sql: string): seq<Call>
  {
    [AllocStmt(dbc, h), Prepare(h, sql)]
  }

  // ---------------------------------------------------------------------
  // Scalar parameters and columns

  class TypedStatement {
    const stmt: Statement

    constructor Wrap(stmt: Statement)
      ensures this.stmt == stmt
    {
      this.stmt := stmt;
    }

    /**
     * The constructors: prepare `sql`, then bind the fields of the
     * parameter struct and then those of the column struct (either struct
     * may be `None`, i.e. have no fields). Null stands for the exception
     * thrown at the first failing call.
     */
    static method Open(driver: Driver, dbc: nat, sql: string, params: seq<Field>, cols: seq<Field>) returns (t: TypedStatement?)
      requires forall i :: 0 <= i < |params| ==> Bindable(params[i].ty)
      requires forall i :: 0 <= i < |cols| ==> Bindable(cols[i].ty)
      modifies driver
      ensures driver.nextHandle == old(driver.nextHandle) + 1
      ensures var h := old(driver.nextHandle);
        Ran(old(driver.log), driver.log, OpenCalls(dbc, h, sql) + ParamCalls(h, 0, params) + ColCalls(h, 0, cols), t != null)
      ensures t != null ==> (fresh(t) && fresh(t.stmt) && t.stmt.driver == driver && t.stmt.handle == old(driver.nextHandle)
        && t.stmt.param == |params| && t.stmt.col == |cols|)
    {
      var s := Statement.Open(driver, dbc, sql);
      var h := old(driver.nextHandle);
      if s == null {
        RanFailedExtends(old(driver.log), driver.log, OpenCalls(dbc, h, sql), ParamCalls(h, 0, params) + ColCalls(h, 0, cols));
        assert OpenCalls(dbc, h, sql) + (ParamCalls(h, 0, params) + ColCalls(h, 0, cols))
          == OpenCalls(dbc, h, sql) + ParamCalls(h, 0, params) + ColCalls(h, 0, cols);
        return null;
      }
      ghost var prepared := driver.log;
      var ok := s.BindParams(params);
      AppendedThenRan(old(driver.log), prepared, driver.log, OpenCalls(dbc, h, sql), ParamCalls(h, 0, params), ok);
      if !ok {
        RanFailedExtends(old(driver.log), driver.log, OpenCalls(dbc, h, sql) + ParamCalls(h, 0, params), ColCalls(h, 0, cols));
        return null;
      }
      ghost var bound := driver.log;
      ok := s.BindCols(cols);
      AppendedThenRan(old(driver.log), bound, driver.log, OpenCalls(dbc, h, sql) + ParamCalls(h, 0, params), ColCalls(h, 0, cols), ok);
      if !ok {
        return null;
      }
      t := new TypedStatement.Wrap(s);
    }

    /** `exec` forwards to the statement. */
    method Exec() returns (ok: bool)
      modifies stmt.driver`log
      ensures Appended(old(stmt.driver.log), stmt.driver.log, ExecCalls(stmt.handle))
      ensures ok == stmt.driver.log[|stmt.driver.log| - 1].ok
    {
      ok := stmt.Exec();
    }

    /** `fetch` forwards to the statement: true while the driver delivers a row into the bound columns. */
    method Fetch() returns (ok: bool)
      modifies stmt.driver`log
      ensures |stmt.driver.log| == |old(stmt.driver.log)| + 1 && stmt.driver.log[..|old(stmt.driver.log)|] == old(stmt.driver.log)
      ensures var e := stmt.driver.log[|old(stmt.driver.log)|]; e.call.Fetch? && e.call.stmt == stmt.handle && ok == e.ok
    {
      var written;
      ok, written := stmt.Fetch();
    }
  }

  // ---------------------------------------------------------------------
  // A vector of parameter sets

  class BulkParamStatement<P> {
    const stmt: Statement
    /** The caller's vector (`params_` is a reference). */
    const params: Vector<P>
    /** `sizeof( Params )`, the stride of the row-wise parameter array. */
    const elemSize: nat
    /** `binding_`: the data pointer and size last bound, initially null and 0. */
    var boundStorage: Storage?
    var boundSize: nat

    constructor Wrap(stmt: Statement, params: Vector<P>, elemSize: nat)
      ensures this.stmt == stmt && this.params == params && this.elemSize == elemSize
      ensures boundStorage == null && boundSize == 0
    {
      this.stmt, this.params, this.elemSize := stmt, params, elemSize;
      boundStorage, boundSize := null, 0;
    }

    /** `binding_` matches the vector as it is now. */
    ghost predicate Bound()
      reads this, params
    {
      boundStorage == params.storage && boundSize == |params.elems|
    }

    /** Once something was bound, the driver's parameter-set count is the recorded size. */
    ghost predicate Synced()
      reads this, stmt.driver
    {
      (boundStorage != null || boundSize != 0) ==> AttrOf(stmt.driver.log, stmt.handle, ParamsetSize) == Some(boundSize)
    }

    /** The constructor prepares `sql` and binds nothing yet. */
    static method Open(driver: Driver, dbc: nat, sql: string, params: Vector<P>, elemSize: nat) returns (t: BulkParamStatement?<P>)
      modifies driver
      ensures driver.nextHandle == old(driver.nextHandle) + 1
      ensures Ran(old(driver.log), driver.log, OpenCalls(dbc, old(driver.nextHandle), sql), t != null)
      ensures t != null ==> (fresh(t) && fresh(t.stmt) && t.stmt.driver == driver && t.stmt.handle == old(driver.nextHandle)
        && t.params == params && t.elemSize == elemSize && t.boundStorage == null && t.boundSize == 0 && t.Synced())
    {
      var s := Statement.Open(driver, dbc, sql);
      if s == null {
        return null;
      }
      t := new BulkParamStatement.Wrap(s, params, elemSize);
    }

    /**
     * `exec`: rebinds the parameter array only when the vector's data
     * pointer or size differs from the last binding, records the new
     * binding once the driver accepted it, then executes.
     */
    method Exec() returns (ok: bool)
      modifies this`boundStorage, this`boundSize, stmt.driver`log
      ensures var rebind := old(boundStorage) != params.storage || old(boundSize) != |params.elems|;
        Ran(old(stmt.driver.log), stmt.driver.log,
            (if rebind then ParamArrayCalls(stmt.handle, elemSize, |params.elems|) else []) + ExecCalls(stmt.handle), ok)
      ensures ok ==> Bound()
      ensures Bound() || (boundStorage == old(boundStorage) && boundSize == old(boundSize))
      ensures old(Synced()) || (ok && (old(boundStorage) != params.storage || old(boundSize) != |params.elems|)) ==> Synced()
    {
      ghost var rebind := boundStorage != params.storage || boundSize != |params.elems|;
      ghost var bindCalls := if rebind then ParamArrayCalls(stmt.handle, elemSize, |params.elems|) else [];
      ok := BindParams();
      if !ok {
        RanFailedExtends(old(stmt.driver.log), stmt.driver.log, bindCalls, ExecCalls(stmt.handle));
        return;
      }
      ghost var mid := stmt.driver.log;
      ok := stmt.Exec();
      AppendedThenRan(old(stmt.driver.log), mid, stmt.driver.log, bindCalls, ExecCalls(stmt.handle), ok);
    }

    /** `bindParams`: binds the parameter array again when the vector moved or changed size since the last binding. */
    method BindParams() returns (ok: bool)
      modifies this`boundStorage, this`boundSize, stmt.driver`log
      ensures var rebind := old(boundStorage) != params.storage || old(boundSize) != |params.elems|;
        Ran(old(stmt.driver.log), stmt.driver.log, if rebind then ParamArrayCalls(stmt.handle, elemSize, |params.elems|) else [], ok)
      ensures ok ==> Bound()
      ensures Bound() || (boundStorage == old(boundStorage) && boundSize == old(boundSize))
      ensures old(Synced()) || (ok && (old(boundStorage) != params.storage || old(boundSize) != |params.elems|)) ==> Synced()
    {
      AppendedNothing(stmt.driver.log);
      ok := true;
      if boundStorage != params.storage || boundSize != |params.elems| {
        ok := stmt.BindParamArray(elemSize, |params.elems|);
        if ok {
          boundStorage, boundSize := params.storage, |params.elems|;
        }
      }
    }
  }

  // ---------------------------------------------------------------------
  // A vector of result rows

  /** What SQLFetch answered: whether it succeeded, and the count it wrote to the rows-fetched buffer, if any. */
  datatype Reply = Reply(ok: bool, written: Option<nat>)

  /** The outcome of `fetch`: the vector's new size, the result, and the new value of `rowsFetched_`. */
  datatype FetchResult = FetchResult(size: nat, more: bool, counter: nat)

  /**
   * `fetch` on a vector of `size` elements and capacity `capacity`, with
   * `counter` the current value of `rowsFetched_`. The driver is asked, and
   * `reply` used, only when the size equals the capacity.
   */
  function FetchStep(size: nat, capacity: nat, counter: nat, reply: Reply): FetchResult
  {
    if size != capacity || !reply.ok then FetchResult(capacity, false, counter)
    else
      var n := if reply.written.Some? then reply.written.value else counter;
      FetchResult(n, n != 0, n)
  }

  /**
   * A fetch that returns true leaves a non-empty batch of at most the
   * driver's count; one that returns false restores the full capacity,
   * except when the driver succeeded with zero rows, which leaves the vector
   * empty (a case the driver rules out for a bound statement; see
   * FetchFalseRestoresCapacity).
   */
  lemma FetchStepOutcome(size: nat, capacity: nat, counter: nat, reply: Reply)
    ensures var r := FetchStep(size, capacity, counter, reply);
      && (r.more <==> size == capacity && reply.ok && r.size != 0)
      && (r.more ==> r.size == r.counter)
      && (!r.more ==> r.size == capacity || (size == capacity && reply.ok && r.size == 0))
      && (size == capacity && reply.ok && reply.written.Some? ==> r.size == reply.written.value)
      && (reply.written.Some? && reply.written.value <= capacity ==> r.size <= capacity)
      && (reply.written.None? ==> r.counter == counter)
  {
  }

  /**
   * When a successful fetch on a full vector reports a positive count, and
   * an unreported count is only used for an empty vector that has a stale
   * zero, a false result always leaves the vector at its full capacity, so
   * `exec`'s size check holds again.
   */
  lemma FetchFalseRestoresCapacity(size: nat, capacity: nat, counter: nat, reply: Reply)
    requires size == capacity && reply.ok && reply.written.Some? ==> reply.written.value > 0
    requires size == capacity && reply.ok && reply.written.None? ==> counter > 0 || capacity == 0
    ensures var r := FetchStep(size, capacity, counter, reply);
      !r.more ==> r.size == capacity
  {
  }

  /** The reply recorded by the single Fetch event `after` adds to `before`, if there is one. */
  ghost function ReplyIn(before: seq<Event>, after: seq<Event>): Reply
  {
    if |after| == |before| + 1 && after[|before|].call.Fetch? then Reply(after[|before|].ok, after[|before|].call.written)
    else Reply(false, None)
  }

  class BulkResultStatement<C> {
    const stmt: Statement
    /** The caller's vector (`rows_` is a reference). */
    const rows: Vector<C>
    /** `sizeof( Cols )`, the stride of the row-wise column array. */
    const elemSize: nat
    /** The address of `rowsFetched_`, which the driver writes through. */
    const rowsFetchedAddr: Addr
    /** `binding_`: the data pointer and size last bound, initially null and 0. */
    var boundStorage: Storage?
    var boundSize: nat
    /** `rowsFetched_`. */
    var rowsFetched: nat

    constructor Wrap(stmt: Statement, rows: Vector<C>, elemSize: nat, rowsFetchedAddr: Addr, rowsFetched: nat)
      ensures this.stmt == stmt && this.rows == rows && this.elemSize == elemSize && this.rowsFetchedAddr == rowsFetchedAddr
      ensures boundStorage == null && boundSize == 0 && this.rowsFetched == rowsFetched
    {
      this.stmt, this.rows, this.elemSize, this.rowsFetchedAddr := stmt, rows, elemSize, rowsFetchedAddr;
      boundStorage, boundSize, this.rowsFetched := null, 0, rowsFetched;
    }

    /** `binding_` matches the vector as it is now. */
    ghost predicate Bound()
      reads this, rows
    {
      boundStorage == rows.storage && boundSize == |rows.elems|
    }

    /**
     * The driver's view agrees with `binding_`: nothing registered while
     * nothing was bound, otherwise a row array of the recorded size whose
     * count goes to `rowsFetched_`.
     */
    ghost predicate Synced()
      reads this, stmt.driver
    {
      if boundStorage == null && boundSize == 0 then RowsFetchedPtrOf(stmt.driver.log, stmt.handle).None?
      else RowArraySizeOf(stmt.driver.log, stmt.handle) == boundSize && RowsFetchedPtrOf(stmt.driver.log, stmt.handle) == Some(rowsFetchedAddr)
    }

    /** While the driver has nowhere to write a count, `rowsFetched_` holds zero. */
    ghost predicate Counted()
      reads this, stmt.driver
    {
      RowsFetchedPtrOf(stmt.driver.log, stmt.handle).None? ==> rowsFetched == 0
    }

    static method OpenWith(driver: Driver, dbc: nat, sql: string, params: seq<Field>, rows: Vector<C>, elemSize: nat, rowsFetchedAddr: Addr, counter: nat)
      returns (t: BulkResultStatement?<C>)
      requires forall i :: 0 <= i < |params| ==> Bindable(params[i].ty)
      requires driver.Valid()
      modifies driver
      ensures driver.nextHandle == old(driver.nextHandle) + 1 && driver.Valid()
      ensures Ran(old(driver.log), driver.log, OpenCalls(dbc, old(driver.nextHandle), sql) + ParamCalls(old(driver.nextHandle), 0, params), t != null)
      ensures t != null ==> (fresh(t) && fresh(t.stmt) && t.stmt.driver == driver && t.stmt.handle == old(driver.nextHandle)
        && t.stmt.handle < driver.nextHandle && t.rows == rows && t.elemSize == elemSize && t.rowsFetchedAddr == rowsFetchedAddr
        && t.boundStorage == null && t.boundSize == 0 && t.rowsFetched == counter && t.Synced())
    {
      var s := Statement.Open(driver, dbc, sql);
      var h := old(driver.nextHandle);
      if s == null {
        RanFailedExtends(old(driver.log), driver.log, OpenCalls(dbc, h, sql), ParamCalls(h, 0, params));
        return null;
      }
      ghost var prepared := driver.log;
      var ok := s.BindParams(params);
      AppendedThenRan(old(driver.log), prepared, driver.log, OpenCalls(dbc, h, sql), ParamCalls(h, 0, params), ok);
      if !ok {
        return null;
      }
      t := new BulkResultStatement.Wrap(s, rows, elemSize, rowsFetchedAddr, counter);
    }

    /**
     * The constructors (with a parameter struct, or with `None` for it):
     * prepare, bind the parameters, and leave `rowsFetched_` uninitialised,
     * i.e. holding whatever value.
     */
    static method Open(driver: Driver, dbc: nat, sql: string, params: seq<Field>, rows: Vector<C>, elemSize: nat, rowsFetchedAddr: Addr)
      returns (t: BulkResultStatement?<C>)
      requires forall i :: 0 <= i < |params| ==> Bindable(params[i].ty)
      requires driver.Valid()
      modifies driver
      ensures driver.nextHandle == old(driver.nextHandle) + 1 && driver.Valid()
      ensures Ran(old(driver.log), driver.log, OpenCalls(dbc, old(driver.nextHandle), sql) + ParamCalls(old(driver.nextHandle), 0, params), t != null)
      ensures t != null ==> (fresh(t) && fresh(t.stmt) && t.stmt.driver == driver && t.stmt.handle == old(driver.nextHandle)
        && t.stmt.handle < driver.nextHandle && t.rows == rows && t.elemSize == elemSize && t.rowsFetchedAddr == rowsFetchedAddr
        && t.boundStorage == null && t.boundSize == 0 && t.Synced())
    {
      var garbage: int := *;
      t := OpenWith(driver, dbc, sql, params, rows, elemSize, rowsFetchedAddr, if garbage < 0 then 0 else garbage);
    }

    /** The constructors with `rowsFetched_` initialised to zero. */
    static method OpenZeroed(driver: Driver, dbc: nat, sql: string, params: seq<Field>, rows: Vector<C>, elemSize: nat, rowsFetchedAddr: Addr)
      returns (t: BulkResultStatement?<C>)
      requires forall i :: 0 <= i < |params| ==> Bindable(params[i].ty)
      requires driver.Valid()
      modifies driver
      ensures driver.nextHandle == old(driver.nextHandle) + 1 && driver.Valid()
      ensures Ran(old(driver.log), driver.log, OpenCalls(dbc, old(driver.nextHandle), sql) + ParamCalls(old(driver.nextHandle), 0, params), t != null)
      ensures t != null ==> (fresh(t) && fresh(t.stmt) && t.stmt.driver == driver && t.stmt.handle == old(driver.nextHandle)
        && t.stmt.handle < driver.nextHandle && t.rows == rows && t.elemSize == elemSize && t.rowsFetchedAddr == rowsFetchedAddr
        && t.boundStorage == null && t.boundSize == 0 && t.rowsFetched == 0 && t.Synced() && t.Counted())
    {
      t := OpenWith(driver, dbc, sql, params, rows, elemSize, rowsFetchedAddr, 0);
    }

    /**
     * `exec`: the vector must be filled to its capacity. Rebinds the row
     * array only when the vector's data pointer or size differs from the
     * last binding, records the new binding once the driver accepted it,
     * then executes.
     */
    method Exec() returns (ok: bool)
      requires |rows.elems| == rows.capacity
      modifies this`boundStorage, this`boundSize, stmt.driver`log
      ensures var rebind := old(boundStorage) != rows.storage || old(boundSize) != |rows.elems|;
        Ran(old(stmt.driver.log), stmt.driver.log,
            (if rebind then ColArrayCalls(stmt.handle, elemSize, |rows.elems|, rowsFetchedAddr) else []) + ExecCalls(stmt.handle), ok)
      ensures ok ==> Bound()
      ensures Bound() || (boundStorage == old(boundStorage) && boundSize == old(boundSize))
      ensures var rebind := old(boundStorage) != rows.storage || old(boundSize) != |rows.elems|;
        (old(Synced()) && !rebind) || (ok && rebind && rows.storage != null) ==> Synced()
      ensures old(Counted()) ==> Counted()
      ensures old(stmt.driver.Valid()) && stmt.handle < stmt.driver.nextHandle ==> stmt.driver.Valid()
    {
      ghost var rebind := boundStorage != rows.storage || boundSize != |rows.elems|;
      ghost var bindCalls := if rebind then ColArrayCalls(stmt.handle, elemSize, |rows.elems|, rowsFetchedAddr) else [];
      ok := BindCols();
      if !ok {
        RanFailedExtends(old(stmt.driver.log), stmt.driver.log, bindCalls, ExecCalls(stmt.handle));
        return;
      }
      ghost var mid := stmt.driver.log;
      ok := stmt.Exec();
      AppendedThenRan(old(stmt.driver.log), mid, stmt.driver.log, bindCalls, ExecCalls(stmt.handle), ok);
    }

    /** `bindCols`: binds the row array (and the fetched-rows counter) again when the vector moved or changed size since the last binding. */
    method BindCols() returns (ok: bool)
      modifies this`boundStorage, this`boundSize, stmt.driver`log
      ensures var rebind := old(boundStorage) != rows.storage || old(boundSize) != |rows.elems|;
        Ran(old(stmt.driver.log), stmt.driver.log,
            if rebind then ColArrayCalls(stmt.handle, elemSize, |rows.elems|, rowsFetchedAddr) else [], ok)
      ensures ok ==> Bound()
      ensures Bound() || (boundStorage == old(boundStorage) && boundSize == old(boundSize))
      ensures var rebind := old(boundStorage) != rows.storage || old(boundSize) != |rows.elems|;
        (old(Synced()) && !rebind) || (ok && rebind && rows.storage != null) ==> Synced()
      ensures old(Counted()) ==> Counted()
      ensures old(stmt.driver.Valid()) && stmt.handle < stmt.driver.nextHandle ==> stmt.driver.Valid()
    {
      AppendedNothing(stmt.driver.log);
      ok := true;
      if boundStorage != rows.storage || boundSize != |rows.elems| {
        ok := stmt.BindColArray(elemSize, |rows.elems|, rowsFetchedAddr);
        if ok {
          boundStorage, boundSize := rows.storage, |rows.elems|;
        }
      }
    }

    /**
     * `fetch`: when the vector is not filled to capacity, or the driver
     * reports no success, the vector is refilled to capacity and the result
     * is false; otherwise the vector is cut to the count the driver wrote to
     * `rowsFetched_` and the result says whether that count is non-zero.
     */
    method Fetch() returns (more: bool)
      requires rows.Valid()
      modifies rows, this`rowsFetched, stmt.driver`log
      ensures rows.Valid()
      ensures old(|rows.elems|) == old(rows.capacity) ==>
        |stmt.driver.log| == |old(stmt.driver.log)| + 1 && stmt.driver.log[..|old(stmt.driver.log)|] == old(stmt.driver.log)
        && stmt.driver.log[|old(stmt.driver.log)|].call.Fetch? && stmt.driver.log[|old(stmt.driver.log)|].call.stmt == stmt.handle
      ensures old(|rows.elems|) != old(rows.capacity) ==> stmt.driver.log == old(stmt.driver.log)
      ensures FetchResult(|rows.elems|, more, rowsFetched)
        == FetchStep(old(|rows.elems|), old(rows.capacity), old(rowsFetched), ReplyIn(old(stmt.driver.log), stmt.driver.log))
      ensures rows.elems == Resized(old(rows.elems), |rows.elems|, rows.zero)
      ensures |rows.elems| <= old(rows.capacity) ==> rows.capacity == old(rows.capacity) && rows.storage == old(rows.storage)
      ensures forall attr :: AttrOf(stmt.driver.log, stmt.handle, attr) == AttrOf(old(stmt.driver.log), stmt.handle, attr)
      ensures old(stmt.driver.Valid()) ==> stmt.driver.Valid()
      ensures old(Synced() && Bound() && Counted()) ==>
        |rows.elems| <= old(rows.capacity) && rows.storage == old(rows.storage) && Synced() && Counted()
      ensures old(Synced() && Bound() && Counted()) && !more ==> |rows.elems| == old(rows.capacity)
    {
      if |rows.elems| != rows.capacity {
        rows.Resize(rows.capacity);
        return false;
      }
      var ok, written := stmt.Fetch();
      if !ok {
        rows.Resize(rows.capacity);
        return false;
      }
      if written.Some? {
        rowsFetched := written.value;
      }
      rows.Resize(rowsFetched);
      more := rowsFetched != 0;
    }
  }

  // ---------------------------------------------------------------------
  // Draining a result set

  function Sum(xs: seq<nat>): nat
  {
    if |xs| == 0 then 0 else xs[0] + Sum(xs[1..])
  }

  /** The batch sizes an ideal driver delivers for `k` remaining rows and a row array of `f`. */
  function Batches(k: nat, f: nat): seq<nat>
    requires f > 0
    decreases k
  {
    if k == 0 then []
    else
      var b := if k < f then k else f;
      [b] + Batches(k - b, f)
  }

  /** Full batches of `f` rows, then the remainder; together exactly the `k` rows. */
  lemma {:induction false} BatchesShape(k: nat, f: nat)
    requires f > 0
    ensures var bs := Batches(k, f);
      && Sum(bs) == k
      && (forall i :: 0 <= i < |bs| ==> 0 < bs[i] <= f)
      && (forall i :: 0 <= i < |bs| - 1 ==> bs[i] == f)
  {
    if k > 0 {
      var b := if k < f then k else f;
      BatchesShape(k - b, f);
      var bs := Batches(k, f);
      assert bs[1..] == Batches(k - b, f);
      if k < f {
        assert Batches(k - b, f) == [];
      }
    }
  }

  /** The driver's answers: each batch as a successful fetch, then SQL_NO_DATA. */
  function Replies(bs: seq<nat>): seq<Reply>
  {
    if |bs| == 0 then [Reply(false, None)] else [Reply(true, Some(bs[0]))] + Replies(bs[1..])
  }

  /** Successive `fetch` calls fed with `replies`, the vector's size and `rowsFetched_` carried from call to call. */
  function RunFetches(size: nat, capacity: nat, counter: nat, replies: seq<Reply>): seq<FetchResult>
    decreases |replies|
  {
    if |replies| == 0 then []
    else
      var r := FetchStep(size, capacity, counter, replies[0]);
      [r] + RunFetches(r.size, capacity, r.counter, replies[1..])
  }

  /**
   * Draining `k` rows through a row array of `f`: every batch comes back
   * with result true and exactly the batch's rows, and the call after the
   * last batch returns false with the vector refilled to capacity.
   */
  lemma {:induction false} DrainFetches(k: nat, f: nat, counter: nat)
    requires f > 0
    ensures var bs := Batches(k, f);
      var rs := RunFetches(f, f, counter, Replies(bs));
      && |rs| == |bs| + 1
      && (forall i :: 0 <= i < |bs| ==> rs[i].more && rs[i].size == bs[i])
      && !rs[|bs|].more && rs[|bs|].size == f
  {
    var bs := Batches(k, f);
    if k > 0 {
      var b := if k < f then k else f;
      assert bs[0] == b && bs[1..] == Batches(k - b, f);
      var r := FetchStep(f, f, counter, Reply(true, Some(b)));
      assert r == FetchResult(b, true, b);
      var rest := RunFetches(b, f, b, Replies(bs[1..]));
      assert RunFetches(f, f, counter, Replies(bs)) == [r] + rest;
      if b == f {
        DrainFetches(k - b, f, b);
      } else {
        assert bs[1..] == [];
        assert Replies(bs[1..]) == [Reply(false, None)];
        assert FetchStep(b, f, b, Reply(false, None)) == FetchResult(f, false, b);
        var last := [Reply(false, None)];
        assert last[1..] == [];
        assert RunFetches(b, f, b, last) == [FetchResult(f, false, b)] + RunFetches(f, f, b, []);
        assert rest == [FetchResult(f, false, b)];
      }
    }
  }

  /** 512 rows through a row array of 128 arrive as four full batches, then fetch reports the end. */
  lemma DrainFiveHundredTwelve()
    ensures Batches(512, 128) == [128, 128, 128, 128]
    ensures var rs := RunFetches(128, 128, 0, Replies([128, 128, 128, 128]));
      |rs| == 5 && rs[0].more && rs[1].more && rs[2].more && rs[3].more && !rs[4].more
      && rs[0].size == rs[1].size == rs[2].size == rs[3].size == rs[4].size == 128
  {
    assert Batches(512, 128) == [128, 128, 128, 128] by {
      assert Batches(0, 128) == [];
      assert Batches(128, 128) == [128];
      assert Batches(256, 128) == [128, 128];
      assert Batches(384, 128) == [128, 128, 128];
    }
    DrainFetches(512, 128, 0);
  }

  /**
   * `binding_` starts as { nullptr, 0 }, the very pair of a vector that
   * never allocated. Such a vector is never bound, so no rows-fetched buffer
   * is registered and a successful fetch resizes the vector to whatever
   * `rowsFetched_` held: here an empty vector of capacity 0 comes back with
   * 5 rows and the result true.
   */
  lemma StaleCounterQuirk()
    ensures FetchStep(0, 0, 5, Reply(true, None)) == FetchResult(5, true, 5)
  {
  }

  /** With `rowsFetched_` zeroed, the same fetch leaves the unallocated vector empty and reports the end. */
  lemma ZeroedCounterFetch()
    ensures FetchStep(0, 0, 0, Reply(true, None)) == FetchResult(0, false, 0)
  {
  }
}
