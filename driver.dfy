/**
 * The database driver as the server sees it: pools that lend connections,
 * connections that run statements and are released, and pools that are ended.
 * What the network and the database do is not modelled; it is given to each
 * call as a parameter (`Acquire`, `Reply`), and ghost counters record what the
 * server did with the connections it borrowed.
 */
module Driver {
  import opened Wrappers
  import opened Types

  /**
   * How a statement's promise stands when its caller stops waiting for it:
   * answered with rows and field descriptors, failed, or not settled at all
   * (before the deadline, for a caller that races a timer; ever, for one that does not).
   */
  datatype Reply = Answered(rows: seq<Row>, fields: seq<FieldPacket>) | Errored(fault: Fault) | Unsettled

  /**
   * What `getConnection` does: lend a connection whose server answers the k-th
   * statement sent on it, `sql`, with `server(k, sql)`; fail; or wait for ever on
   * a saturated pool.
   */
  datatype Acquire = Granted(server: (nat, string) -> Reply) | Refused(fault: Fault) | Blocked

  /** The options a pool is created with. `ssl` is `Some(map[])` for the empty object `{}`. */
  datatype PoolOptions = PoolOptions(
    host: Option<string>,
    user: Option<string>,
    password: Option<string>,
    database: Option<string>,
    ssl: Option<map<string, string>>,
    connectionLimit: int,
    enableKeepAlive: bool,
    keepAliveInitialDelay: int)

  /** The outcome of a `getConnection` call. */
  datatype Borrow = Lent(connection: Connection) | Failed(fault: Fault) | Waiting

  class Pool {
    const options: PoolOptions
    /** Connections this pool has lent. */
    ghost var borrowed: nat
    /** `release()` calls made on connections this pool lent. */
    ghost var released: nat
    /** `end()` calls made on this pool. */
    ghost var endCalls: nat

    constructor (options: PoolOptions)
      ensures this.options == options
      ensures borrowed == 0 && released == 0 && endCalls == 0
    {
      this.options := options;
      borrowed, released, endCalls := 0, 0, 0;
    }

    /** `pool.getConnection()`. */
    method GetConnection(acquire: Acquire) returns (b: Borrow)
      modifies this
      ensures b.Lent? <==> acquire.Granted?
      ensures b.Failed? <==> acquire.Refused?
      ensures b.Failed? ==> b.fault == acquire.fault
      ensures b.Lent? ==>
        && fresh(b.connection)
        && b.connection.pool == this
        && b.connection.server == acquire.server
        && b.connection.issued == []
        && b.connection.releases == 0
      ensures borrowed == old(borrowed) + (if b.Lent? then 1 else 0)
      ensures released == old(released) && endCalls == old(endCalls)
    {
      match acquire
      case Granted(server) =>
        var c := new Connection(this, server);
        borrowed := borrowed + 1;
        b := Lent(c);
      case Refused(fault) =>
        b := Failed(fault);
      case Blocked =>
        b := Waiting;
    }

    /** `pool.end()`: rejects with `fault` when one is given. */
    method End(fault: Option<Fault>) returns (outcome: Option<Fault>)
      modifies this
      ensures outcome == fault
      ensures endCalls == old(endCalls) + 1
      ensures borrowed == old(borrowed) && released == old(released)
    {
      endCalls := endCalls + 1;
      outcome := fault;
    }
  }

  /** `createPool(options)`: a new pool, or nothing when the call throws. */
  method CreatePool(options: PoolOptions, throws: bool) returns (r: Option<Pool>)
    ensures r.None? <==> throws
    ensures r.Some? ==>
      fresh(r.value) && r.value.options == options
      && r.value.borrowed == 0 && r.value.released == 0 && r.value.endCalls == 0
  {
    if throws {
      r := None;
    } else {
      var p := new Pool(options);
      r := Some(p);
    }
  }

  class Connection {
    const pool: Pool
    const server: (nat, string) -> Reply
    /** The statements sent on this connection, in order. */
    var issued: seq<string>
    /** `release()` calls made on this connection. */
    ghost var releases: nat

    constructor (pool: Pool, server: (nat, string) -> Reply)
      ensures this.pool == pool && this.server == server
      ensures issued == [] && releases == 0
    {
      this.pool := pool;
      this.server := server;
      issued, releases := [], 0;
    }

    /** `connection.query(sql)`: the reply to the next statement sent on this connection. */
    method Query(sql: string) returns (reply: Reply)
      modifies this
      ensures reply == server(|old(issued)|, sql)
      ensures issued == old(issued) + [sql]
      ensures releases == old(releases)
    {
      reply := server(|issued|, sql);
      issued := issued + [sql];
    }

    /** `connection.release()`: hands the connection back to its pool. */
    method Release()
      modifies this, pool
      ensures releases == old(releases) + 1
      ensures pool.released == old(pool.released) + 1
      ensures pool.borrowed == old(pool.borrowed) && pool.endCalls == old(pool.endCalls)
      ensures issued == old(issued)
    {
      releases := releases + 1;
      pool.released := pool.released + 1;
    }
  }
}
