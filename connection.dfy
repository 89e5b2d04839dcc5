/**
 * A connection (an environment handle and a connection handle, with
 * autocommit switched off) and the transaction guard that rolls back unless
 * committed. A constructor that throws becomes a static method returning
 * null; a method that throws returns `false`.
 */
module Connections {
  import opened Driver

  /** SQL_CD_TRUE and SQL_CD_FALSE, the values of SQL_ATTR_CONNECTION_DEAD. */
  const CD_TRUE: nat := 1
  const CD_FALSE: nat := 0

  /** The checked calls of the constructor, in order. */
  function ConnectCalls(env: nat, dbc: nat, connStr: string): seq<Call>
  {
    [AllocEnv(env), SetEnvAttr(env, OdbcVersion3), SetEnvAttr(env, ConnectionPoolingOff),
     AllocDbc(env, dbc), DriverConnect(dbc, connStr), SetAutocommitOff(dbc)]
  }

  /** Every call of the constructor is about the two handles it allocated. */
  lemma ConnectCallsUseOwnHandles(env: nat, dbc: nat, connStr: string)
    ensures var cs := ConnectCalls(env, dbc, connStr);
      |cs| == 6
      && (forall i :: 0 <= i < 3 ==> cs[i].env == env)
      && cs[3].env == env && cs[3].dbc == dbc
      && (forall i :: 3 <= i < 6 ==> cs[i].dbc == dbc)
      && cs[4].connStr == connStr
      && (forall i :: 0 <= i < 6 ==> !cs[i].SetStmtAttr? && !cs[i].EndTran?)
  {
  }

  class Connection {
    const driver: Driver
    const env: nat
    const dbc: nat

    constructor Connected(driver: Driver, env: nat, dbc: nat)
      ensures this.driver == driver && this.env == env && this.dbc == dbc
    {
      this.driver, this.env, this.dbc := driver, env, dbc;
    }

    /**
     * The constructor: allocates the environment, asks for ODBC 3 and no
     * connection pooling, allocates the connection, connects with
     * `connStr` and switches autocommit off, stopping at the first call that
     * fails.
     */
    static method Open(driver: Driver, connStr: string) returns (c: Connection?)
      modifies driver
      ensures driver.nextHandle == old(driver.nextHandle) + 2
      ensures Ran(old(driver.log), driver.log, ConnectCalls(old(driver.nextHandle), old(driver.nextHandle) + 1, connStr), c != null)
      ensures c != null ==> fresh(c) && c.driver == driver && c.env == old(driver.nextHandle) && c.dbc == old(driver.nextHandle) + 1
      ensures old(driver.Valid()) ==> driver.Valid()
    {
      var env := driver.NewHandle();
      var dbc := driver.NewHandle();
      ConnectCallsUseOwnHandles(env, dbc, connStr);
      var ok := driver.RunAll(ConnectCalls(env, dbc, connStr));
      if !ok {
        return null;
      }
      c := new Connection.Connected(driver, env, dbc);
    }

    /**
     * `isDead`: asks the driver for SQL_ATTR_CONNECTION_DEAD into a buffer
     * preset to SQL_CD_TRUE, ignoring the return code; the connection is
     * dead unless the buffer then holds SQL_CD_FALSE. The driver writes the
     * buffer only when the call succeeds, so a failing call reads as dead.
     */
    method IsDead() returns (dead: bool)
      modifies driver`log
      ensures |driver.log| == |old(driver.log)| + 1 && driver.log[..|old(driver.log)|] == old(driver.log)
      ensures var e := driver.log[|old(driver.log)|];
        e.call.GetConnectionDead? && e.call.dbc == dbc
        && (dead <==> !(e.ok && e.call.reported == CD_FALSE))
      ensures old(driver.Valid()) ==> driver.Valid()
    {
      var buffer := CD_TRUE;
      var ok, reported := driver.ConnectionDeadAttr(dbc);
      if ok {
        buffer := reported;
      }
      dead := buffer != CD_FALSE;
    }
  }

  /**
   * The transaction guard. `dbc` is the connection handle it still owns, or
   * None once committed or moved from. All connections talk to the one
   * driver manager of the process.
   */
  class Transaction {
    const driver: Driver
    var dbc: Option<nat>

    /** Begins a transaction on `conn` (autocommit is already off). */
    constructor Begin(conn: Connection)
      ensures driver == conn.driver && dbc == Some(conn.dbc)
    {
      driver := conn.driver;
      dbc := Some(conn.dbc);
    }

    /** The move constructor: takes over the handle and leaves `that` owning none. */
    constructor Move(that: Transaction)
      modifies that
      ensures driver == that.driver && dbc == old(that.dbc) && that.dbc == None
    {
      driver := that.driver;
      dbc := that.dbc;
      that.dbc := None;
    }

    /** The move assignment: the two guards exchange their handles. */
    method MoveAssign(that: Transaction)
      requires that.driver == driver
      modifies this, that
      ensures dbc == old(that.dbc) && that.dbc == old(dbc)
    {
      dbc, that.dbc := that.dbc, dbc;
    }

    /**
     * `commit`: ends the transaction with SQL_COMMIT and gives up the handle
     * only if that succeeded; on a guard owning no handle the driver
     * manager rejects the call.
     */
    method Commit() returns (ok: bool)
      modifies this, driver`log
      ensures driver.log == old(driver.log) + [Event(EndTran(old(dbc), Completion.Commit), ok)]
      ensures dbc == if ok then None else old(dbc)
      ensures old(dbc).None? ==> !ok
      ensures old(driver.Valid()) ==> driver.Valid()
    {
      ok := driver.Invoke(EndTran(dbc, Completion.Commit));
      if ok {
        dbc := None;
      }
    }

    /**
     * The destructor: a guard that still owns its handle rolls the
     * transaction back; one that owns none issues nothing.
     */
    method Destroy() returns (ok: bool)
      modifies driver`log
      ensures dbc.Some? ==> driver.log == old(driver.log) + [Event(EndTran(dbc, Rollback), ok)]
      ensures dbc.None? ==> ok && driver.log == old(driver.log)
      ensures old(driver.Valid()) ==> driver.Valid()
    {
      ok := true;
      if dbc.Some? {
        ok := driver.Invoke(EndTran(dbc, Rollback));
      }
    }
  }

  /** The calls a scope that begins a transaction on `dbc` and commits it issues, given the commit's verdict. */
  function ScopeCalls(dbc: nat, committed: bool): seq<Call>
  {
    [EndTran(Some(dbc), Commit)] + if committed then [] else [EndTran(Some(dbc), Rollback)]
  }

  /**
   * A scope holding a guard and calling `commit` on it: a successful commit
   * leaves nothing for the destructor to do; a failed commit unwinds through
   * the destructor, which rolls back.
   */
  method CommitScope(conn: Connection) returns (committed: bool)
    modifies conn.driver`log
    ensures |conn.driver.log| >= |old(conn.driver.log)| && conn.driver.log[..|old(conn.driver.log)|] == old(conn.driver.log)
    ensures Calls(conn.driver.log[|old(conn.driver.log)|..]) == ScopeCalls(conn.dbc, committed)
    ensures committed == conn.driver.log[|old(conn.driver.log)|].ok
  {
    var t := new Transaction.Begin(conn);
    committed := t.Commit();
    ghost var mid := conn.driver.log;
    var _ := t.Destroy();
    if !committed {
      assert conn.driver.log[|old(conn.driver.log)|..] == mid[|old(conn.driver.log)|..] + conn.driver.log[|mid|..];
      CallsConcat(mid[|old(conn.driver.log)|..], conn.driver.log[|mid|..]);
    } else {
      assert conn.driver.log == mid;
    }
  }

  /**
   * Moving a guard leaves exactly one owner: destroying the moved-from
   * guard and then the new one rolls back once.
   */
  method MoveScope(conn: Connection) returns (ok: bool)
    modifies conn.driver`log
    ensures conn.driver.log == old(conn.driver.log) + [Event(EndTran(Some(conn.dbc), Rollback), ok)]
  {
    var t := new Transaction.Begin(conn);
    var u := new Transaction.Move(t);
    var first := t.Destroy();
    assert first && conn.driver.log == old(conn.driver.log);
    ok := u.Destroy();
  }
}
