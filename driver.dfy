/**
 * The ODBC driver manager as an abstract collaborator. Every call the
 * wrapper makes is appended to `log` together with the driver's verdict
 * (whether SQL_SUCCEEDED held for its return code). The verdicts, the
 * rows-fetched counts and the connection-dead attribute are the driver's
 * choice; the only promise relied on is that a fetch never reports more rows
 * than the row-array size last set on that statement handle.
 */
module Driver {

  /** The address of a caller-owned buffer handed to the driver. */
  type Addr = nat

  datatype EnvAttr = OdbcVersion3 | ConnectionPoolingOff

  datatype StmtAttr = ParamBindType | ParamsetSize | RowBindType | RowArraySize | RowsFetchedPtr

  datatype Completion = Commit | Rollback

  /** The C data types the wrapper binds (SQL_C_STINYINT, SQL_C_UTINYINT, ...). */
  datatype CType =
    | CSTinyInt | CUTinyInt | CSShort | CUShort | CSLong | CULong | CSBigInt | CUBigInt
    | CFloat | CDouble | CBit | CTimestamp | CChar

  /** The SQL data types the wrapper declares for parameters (SQL_TINYINT, ...). */
  datatype SqlType = TinyInt | SmallInt | Integer | BigInt | Float | Double | Timestamp | VarChar

  datatype Call =
    | AllocEnv(env: nat)
    | SetEnvAttr(env: nat, envAttr: EnvAttr)
    | AllocDbc(env: nat, dbc: nat)
    | DriverConnect(dbc: nat, connStr: string)
    | SetAutocommitOff(dbc: nat)
    | GetConnectionDead(dbc: nat, reported: nat)
    | EndTran(target: Option<nat>, completion: Completion)
    | AllocStmt(dbc: nat, stmt: nat)
    | Prepare(stmt: nat, sql: string)
    | BindParameter(stmt: nat, slot: nat, cType: CType, sqlType: SqlType, length: nat, data: Addr, size: nat, indicator: Option<Addr>)
    | BindCol(stmt: nat, slot: nat, cType: CType, data: Addr, size: nat, indicator: Option<Addr>)
    | SetStmtAttr(stmt: nat, attr: StmtAttr, value: nat)
    | CloseCursor(stmt: nat)
    | Execute(stmt: nat)
    | Fetch(stmt: nat, written: Option<nat>)

  datatype Option<T> = None | Some(value: T)

  /** One call and whether the driver reported success for it. */
  datatype Event = Event(call: Call, ok: bool)

  function Calls(events: seq<Event>): (r: seq<Call>)
    ensures |r| == |events| && forall i :: 0 <= i < |events| ==> r[i] == events[i].call
  {
    seq(|events|, i requires 0 <= i < |events| => events[i].call)
  }

  lemma CallsConcat(a: seq<Event>, b: seq<Event>)
    ensures Calls(a + b) == Calls(a) + Calls(b)
  {
  }

  /** The value of the last successful setting of statement attribute `attr` on handle `h`, if any. */
  function AttrOf(log: seq<Event>, h: nat, attr: StmtAttr): Option<nat>
  {
    if |log| == 0 then None
    else
      var e := log[|log| - 1];
      if e.ok && e.call.SetStmtAttr? && e.call.stmt == h && e.call.attr == attr then Some(e.call.value)
      else AttrOf(log[..|log| - 1], h, attr)
  }

  /** The row-array size in force on statement `h`: the last one set, or ODBC's default of 1. */
  function RowArraySizeOf(log: seq<Event>, h: nat): nat
  {
    match AttrOf(log, h, RowArraySize)
    case None => 1
    case Some(n) => n
  }

  /** The rows-fetched buffer registered on statement `h`, if any. */
  function RowsFetchedPtrOf(log: seq<Event>, h: nat): Option<Addr>
  {
    AttrOf(log, h, RowsFetchedPtr)
  }

  /** `c` sets no attribute of a statement handle at or above `n`. */
  predicate SetsAttrBelow(c: Call, n: nat)
  {
    c.SetStmtAttr? ==> c.stmt < n
  }

  /** A handle not yet handed out has no attribute set. */
  lemma {:induction false} FreshHandleHasNoAttrs(log: seq<Event>, n: nat, h: nat, attr: StmtAttr)
    requires forall i :: 0 <= i < |log| ==> SetsAttrBelow(log[i].call, n)
    requires n <= h
    ensures AttrOf(log, h, attr).None?
  {
    if |log| > 0 {
      assert SetsAttrBelow(log[|log| - 1].call, n);
      FreshHandleHasNoAttrs(log[..|log| - 1], n, h, attr);
    }
  }

  /** Calls that leave the statement attributes of `h` alone. */
  predicate KeepsAttrs(e: Event, h: nat)
  {
    !(e.ok && e.call.SetStmtAttr? && e.call.stmt == h)
  }

  /** Appending calls that set no attribute of `h` keeps every attribute of `h`. */
  lemma {:induction false} AttrsKept(log: seq<Event>, more: seq<Event>, h: nat, attr: StmtAttr)
    requires forall i :: 0 <= i < |more| ==> KeepsAttrs(more[i], h)
    ensures AttrOf(log + more, h, attr) == AttrOf(log, h, attr)
  {
    if |more| > 0 {
      var init := more[..|more| - 1];
      assert (log + more)[..|log + more| - 1] == log + init;
      assert (log + more)[|log + more| - 1] == more[|more| - 1];
      assert KeepsAttrs(more[|more| - 1], h);
      AttrsKept(log, init, h, attr);
    } else {
      assert log + more == log;
    }
  }

  /** Setting one attribute leaves the others as they were; the one set reads back as the new value. */
  lemma AttrAfterSet(log: seq<Event>, h: nat, attr: StmtAttr, v: nat, ok: bool, other: StmtAttr)
    ensures AttrOf(log + [Event(SetStmtAttr(h, attr, v), ok)], h, other)
      == if ok && other == attr then Some(v) else AttrOf(log, h, other)
  {
    assert (log + [Event(SetStmtAttr(h, attr, v), ok)])[..|log|] == log;
  }

  /** `after` continues `before` with exactly the calls `calls`, whatever the driver answered. */
  ghost predicate Appended(before: seq<Event>, after: seq<Event>, calls: seq<Call>)
  {
    before <= after && Calls(after[|before|..]) == calls
  }

  /**
   * A run of checked calls: when `ok`, all of `calls` were issued; otherwise
   * a non-empty prefix of them was, and the last one issued failed (the
   * wrapper throws at the first failure and issues nothing more).
   */
  ghost predicate Ran(before: seq<Event>, after: seq<Event>, calls: seq<Call>, ok: bool)
  {
    before <= after &&
    var done := Calls(after[|before|..]);
    if ok then done == calls
    else 0 < |done| <= |calls| && done == calls[..|done|] && !after[|after| - 1].ok
  }

  lemma AppendedOne(before: seq<Event>, c: Call, ok: bool)
    ensures Appended(before, before + [Event(c, ok)], [c])
    ensures Ran(before, before + [Event(c, ok)], [c], ok)
  {
    assert (before + [Event(c, ok)])[|before|..] == [Event(c, ok)];
  }

  lemma AppendedNothing(log: seq<Event>)
    ensures Appended(log, log, []) && Ran(log, log, [], true)
  {
    assert log[|log|..] == [];
  }

  /** Issuing `c1` and then running `c2` is running `c1 + c2`. */
  lemma AppendedThenRan(a: seq<Event>, b: seq<Event>, c: seq<Event>, c1: seq<Call>, c2: seq<Call>, ok: bool)
    requires Appended(a, b, c1) && Ran(b, c, c2, ok)
    ensures Ran(a, c, c1 + c2, ok)
    ensures ok ==> Appended(a, c, c1 + c2)
  {
    assert c[|a|..] == b[|a|..] + c[|b|..] by {
      assert b <= c;
    }
    CallsConcat(b[|a|..], c[|b|..]);
    if !ok {
      var d2 := Calls(c[|b|..]);
      assert (c1 + c2)[..|c1| + |d2|] == c1 + c2[..|d2|];
    }
  }

  /** One more checked call after a successful run extends the run by that call. */
  lemma RanSnoc(a: seq<Event>, b: seq<Event>, calls: seq<Call>, c: Call, ok: bool)
    requires Ran(a, b, calls, true)
    ensures Ran(a, b + [Event(c, ok)], calls + [c], ok)
    ensures ok ==> Appended(a, b + [Event(c, ok)], calls + [c])
  {
    AppendedOne(b, c, ok);
    assert (b + [Event(c, ok)])[|a|..] == b[|a|..] + [Event(c, ok)];
    CallsConcat(b[|a|..], [Event(c, ok)]);
    if !ok {
      assert (calls + [c])[..|calls| + 1] == calls + [c];
    }
  }

  /** A run that failed stays a failed run of any longer call list. */
  lemma RanFailedExtends(a: seq<Event>, b: seq<Event>, c1: seq<Call>, c2: seq<Call>)
    requires Ran(a, b, c1, false)
    ensures Ran(a, b, c1 + c2, false)
  {
    var d := Calls(b[|a|..]);
    assert (c1 + c2)[..|d|] == c1[..|d|];
  }

  class Driver {
    var log: seq<Event>
    var nextHandle: nat

    /** Only handles already handed out have had attributes set. */
    ghost predicate Valid()
      reads this
    {
      forall i :: 0 <= i < |log| ==> SetsAttrBelow(log[i].call, nextHandle)
    }

    constructor ()
      ensures log == [] && nextHandle == 1 && Valid()
    {
      log := [];
      nextHandle := 1;
    }

    /** A handle the driver has never handed out (0 stays the null handle). */
    method NewHandle() returns (h: nat)
      modifies this`nextHandle
      ensures h == old(nextHandle) && nextHandle == h + 1
      ensures old(Valid()) ==> Valid()
    {
      h := nextHandle;
      nextHandle := nextHandle + 1;
    }

    /**
     * Issues `c`; the driver decides whether it succeeds, except that the
     * driver manager rejects SQLEndTran on a null connection handle.
     */
    method Invoke(c: Call) returns (ok: bool)
      modifies this`log
      ensures c.EndTran? && c.target.None? ==> !ok
      ensures log == old(log) + [Event(c, ok)]
      ensures old(Valid()) && SetsAttrBelow(c, nextHandle) ==> Valid()
    {
      ok := *;
      if c.EndTran? && c.target.None? {
        ok := false;
      }
      log := log + [Event(c, ok)];
    }

    /** Issues the checked calls `calls` in order, stopping at the first one that fails. */
    method RunAll(calls: seq<Call>) returns (ok: bool)
      modifies this`log
      ensures Ran(old(log), log, calls, ok)
      ensures old(Valid()) && (forall i :: 0 <= i < |calls| ==> SetsAttrBelow(calls[i], nextHandle)) ==> Valid()
    {
      ok := true;
      AppendedNothing(log);
      var i := 0;
      while i < |calls|
        invariant 0 <= i <= |calls|
        invariant Ran(old(log), log, calls[..i], true)
        invariant old(Valid()) && (forall j :: 0 <= j < |calls| ==> SetsAttrBelow(calls[j], nextHandle)) ==> Valid()
      {
        ghost var before := log;
        ok := Invoke(calls[i]);
        RanSnoc(old(log), before, calls[..i], calls[i], ok);
        assert calls[..i] + [calls[i]] == calls[..i + 1];
        if !ok {
          RanFailedExtends(old(log), log, calls[..i + 1], calls[i + 1..]);
          assert calls[..i + 1] + calls[i + 1..] == calls;
          return;
        }
        i := i + 1;
      }
      assert calls[..i] == calls;
    }

    /**
     * SQLFetch on `h`. On success, and only when a rows-fetched buffer is
     * registered, the driver writes to it how many rows it delivered, never
     * more than the row-array size in force. A successful fetch delivers at
     * least one row: the end of the data is reported as SQL_NO_DATA, which
     * is not a success.
     */
    method FetchRows(h: nat) returns (ok: bool, written: Option<nat>)
      modifies this`log
      ensures written.Some? <==> ok && RowsFetchedPtrOf(old(log), h).Some?
      ensures written.Some? ==> written.value <= RowArraySizeOf(old(log), h)
      ensures written.Some? && RowArraySizeOf(old(log), h) > 0 ==> written.value > 0
      ensures log == old(log) + [Event(Fetch(h, written), ok)]
      ensures old(Valid()) ==> Valid()
    {
      ok := *;
      var bound := RowArraySizeOf(log, h);
      var reported: int := *;
      if ok && RowsFetchedPtrOf(log, h).Some? {
        written := Some(if bound == 0 then 0 else if reported < 1 then 1 else if reported <= bound then reported else bound);
      } else {
        written := None;
      }
      log := log + [Event(Fetch(h, written), ok)];
    }

    /**
     * SQLGetConnectAttr(SQL_ATTR_CONNECTION_DEAD); `reported` is what the
     * driver writes to the caller's buffer, which it does only on success.
     */
    method ConnectionDeadAttr(dbc: nat) returns (ok: bool, reported: nat)
      modifies this`log
      ensures log == old(log) + [Event(GetConnectionDead(dbc, reported), ok)]
      ensures old(Valid()) ==> Valid()
    {
      ok := *;
      reported := *;
      log := log + [Event(GetConnectionDead(dbc, reported), ok)];
    }
  }
}
