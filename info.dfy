/**
 * The info tool: five fixed statements on one borrowed connection, folded into
 * a report of version, uptime, variables, process list and database names.
 */
module InfoTool {
  import opened Wrappers
  import opened Collections
  import opened Types
  import opened Driver
  import opened Pools

  const VersionStatement: string := "SELECT VERSION() as version"
  const StatusStatement: string := "SHOW STATUS"
  const VariablesStatement: string := "SHOW VARIABLES"
  const ProcessListStatement: string := "SHOW PROCESSLIST"
  const DatabasesStatement: string := "SHOW DATABASES"

  /** The statements the tool sends, in the order it sends them. */
  const InfoStatements: seq<string> :=
    [VersionStatement, StatusStatement, VariablesStatement, ProcessListStatement, DatabasesStatement]

  /** The `TypeError` raised when the version statement returns no row. */
  const NoVersionRowMessage: string := "Cannot read properties of undefined (reading 'version')"

  /** The prefix every failure after the pool lookup is wrapped in. */
  const InfoFailedPrefix: string := "Failed to get database info: "

  /** The report the tool returns. */
  datatype DatabaseInfo = DatabaseInfo(
    version: Value,
    status: string,
    variables: map<string, Value>,
    processlist: seq<Row>,
    databases: seq<Value>)

  /** The property key a name/value row is filed under: `String(row.Variable_name)`. */
  function NameKey(row: Row): string {
    ToJsString(Column(row, "Variable_name"))
  }

  /** The `reduce` over name/value rows: `acc[row.Variable_name] = row.Value`, from the first row to the last. */
  function NameValueMap(rows: seq<Row>): map<string, Value> {
    if rows == [] then map[]
    else
      var last := rows[|rows| - 1];
      NameValueMap(rows[..|rows| - 1])[NameKey(last) := Column(last, "Value")]
  }

  /** The folded map has a key for exactly the names the rows carry. */
  lemma {:induction false} NameValueMapKeys(rows: seq<Row>)
    ensures forall k :: k in NameValueMap(rows) <==> exists i :: 0 <= i < |rows| && NameKey(rows[i]) == k
  {
    if rows != [] {
      var init := rows[..|rows| - 1];
      NameValueMapKeys(init);
      forall k ensures k in NameValueMap(rows) <==> exists i :: 0 <= i < |rows| && NameKey(rows[i]) == k {
        if k in NameValueMap(init) {
          var i :| 0 <= i < |init| && NameKey(init[i]) == k;
          assert rows[i] == init[i];
        }
        if exists i :: 0 <= i < |rows| && NameKey(rows[i]) == k {
          var i :| 0 <= i < |rows| && NameKey(rows[i]) == k;
          if i < |init| {
            assert init[i] == rows[i];
          }
        }
      }
    }
  }

  /** Under each name the folded map holds the value of the LAST row with that name. */
  lemma {:induction false} NameValueMapLastWins(rows: seq<Row>, i: int)
    requires 0 <= i < |rows|
    requires forall j :: i < j < |rows| ==> NameKey(rows[j]) != NameKey(rows[i])
    ensures NameKey(rows[i]) in NameValueMap(rows)
    ensures NameValueMap(rows)[NameKey(rows[i])] == Column(rows[i], "Value")
  {
    var init := rows[..|rows| - 1];
    if i < |init| {
      assert init[i] == rows[i];
      forall j | i < j < |init| ensures NameKey(init[j]) != NameKey(init[i]) {
        assert init[j] == rows[j];
      }
      NameValueMapLastWins(init, i);
    }
  }

  /** `status.Uptime ? \`Up ${status.Uptime} seconds\` : "Unknown"`. */
  function UptimeStatus(status: map<string, Value>): string {
    if "Uptime" in status && Truthy(status["Uptime"]) then "Up " + ToJsString(status["Uptime"]) + " seconds"
    else "Unknown"
  }

  /**
   * Read against the status rows: the report says "Up ... seconds" with the value
   * of the last `Uptime` row when that value is truthy, and "Unknown" when no row
   * is named `Uptime` or the last one has a falsy value.
   */
  lemma UptimeFromRows(rows: seq<Row>, i: int)
    requires 0 <= i < |rows| && NameKey(rows[i]) == "Uptime"
    requires forall j :: i < j < |rows| ==> NameKey(rows[j]) != "Uptime"
    ensures Truthy(Column(rows[i], "Value")) ==>
      UptimeStatus(NameValueMap(rows)) == "Up " + ToJsString(Column(rows[i], "Value")) + " seconds"
    ensures !Truthy(Column(rows[i], "Value")) ==> UptimeStatus(NameValueMap(rows)) == "Unknown"
  {
    NameValueMapLastWins(rows, i);
  }

  /** Without an `Uptime` row the status is "Unknown". */
  lemma NoUptimeUnknown(rows: seq<Row>)
    requires forall j :: 0 <= j < |rows| ==> NameKey(rows[j]) != "Uptime"
    ensures UptimeStatus(NameValueMap(rows)) == "Unknown"
  {
    NameValueMapKeys(rows);
  }

  /** `row.Database` of every row, in order. */
  function Databases(rows: seq<Row>): (r: seq<Value>)
    ensures |r| == |rows| && forall i :: 0 <= i < |rows| ==> r[i] == Column(rows[i], "Database")
  {
    Map(rows, (row: Row) => Column(row, "Database"))
  }

  /**
   * How the five statements on a connection end: a report; a failure after
   * `issued` statements, with its message; or a statement that never settles,
   * after `issued` statements, so that the tool waits for ever.
   */
  datatype Inspection = Report(info: DatabaseInfo) | Stopped(issued: nat, message: string) | Stuck(issued: nat)

  /** How many of the statements were sent. */
  function Issued(r: Inspection): nat {
    match r
    case Report(_) => 5
    case Stopped(n, _) => n
    case Stuck(n) => n
  }

  /** What the five statements give on a connection whose server answers the k-th statement with `server(k, ·)`. */
  function Inspect(server: (nat, string) -> Reply): Inspection {
    match server(0, VersionStatement)
    case Errored(f) => Stopped(1, FaultMessage(f))
    case Unsettled => Stuck(1)
    case Answered(versionRows, _) =>
      if versionRows == [] then Stopped(1, NoVersionRowMessage)
      else
        match server(1, StatusStatement)
        case Errored(f) => Stopped(2, FaultMessage(f))
        case Unsettled => Stuck(2)
        case Answered(statusRows, _) =>
          match server(2, VariablesStatement)
          case Errored(f) => Stopped(3, FaultMessage(f))
          case Unsettled => Stuck(3)
          case Answered(variableRows, _) =>
            match server(3, ProcessListStatement)
            case Errored(f) => Stopped(4, FaultMessage(f))
            case Unsettled => Stuck(4)
            case Answered(processRows, _) =>
              match server(4, DatabasesStatement)
              case Errored(f) => Stopped(5, FaultMessage(f))
              case Unsettled => Stuck(5)
              case Answered(databaseRows, _) =>
                Report(DatabaseInfo(
                  Column(versionRows[0], "version"),
                  UptimeStatus(NameValueMap(statusRows)),
                  NameValueMap(variableRows),
                  processRows,
                  Databases(databaseRows)))
  }

  /** The reply to the `k`-th statement. */
  function ReplyTo(server: (nat, string) -> Reply, k: nat): Reply
    requires k < 5
  {
    server(k, InfoStatements[k])
  }

  /**
   * A report comes exactly when all five statements answer and the version
   * statement returns a row; its fields are read off the five answers.
   */
  lemma ReportExactlyWhenAllAnswer(server: (nat, string) -> Reply)
    ensures Inspect(server).Report? <==>
      (forall k :: 0 <= k < 5 ==> ReplyTo(server, k).Answered?) && ReplyTo(server, 0).rows != []
    ensures Inspect(server).Report? ==>
      var info := Inspect(server).info;
      && info.version == Column(ReplyTo(server, 0).rows[0], "version")
      && info.status == UptimeStatus(NameValueMap(ReplyTo(server, 1).rows))
      && info.variables == NameValueMap(ReplyTo(server, 2).rows)
      && info.processlist == ReplyTo(server, 3).rows
      && info.databases == Databases(ReplyTo(server, 4).rows)
  {
    if (forall k :: 0 <= k < 5 ==> ReplyTo(server, k).Answered?) && ReplyTo(server, 0).rows != [] {
      assert ReplyTo(server, 1).Answered? && ReplyTo(server, 2).Answered?;
      assert ReplyTo(server, 3).Answered? && ReplyTo(server, 4).Answered?;
    }
  }

  /**
   * The statements stop at the first one that fails or never settles: every
   * statement before it was answered, and the version statement's empty answer
   * stops them after the first.
   */
  lemma StopsAtFirstFailure(server: (nat, string) -> Reply)
    ensures 1 <= Issued(Inspect(server)) <= 5
    ensures forall k :: 0 <= k < Issued(Inspect(server)) - 1 ==> ReplyTo(server, k).Answered?
    ensures var r := Inspect(server);
      var n := Issued(r);
      && (r.Stuck? ==> ReplyTo(server, n - 1).Unsettled?)
      && (r.Stopped? ==>
            (ReplyTo(server, n - 1).Errored? && r.message == FaultMessage(ReplyTo(server, n - 1).fault))
            || (n == 1 && ReplyTo(server, 0) .Answered? && ReplyTo(server, 0).rows == [] && r.message == NoVersionRowMessage))
  {
  }

  /**
   * The body of the inner `try` of `runInfoTool` on a freshly borrowed connection:
   * the five statements in order, stopping at the first that fails.
   */
  method CollectInfo(conn: Connection) returns (r: Inspection)
    requires conn.issued == []
    modifies conn
    ensures r == Inspect(conn.server)
    ensures conn.issued == InfoStatements[..Issued(r)]
    ensures conn.releases == old(conn.releases)
  {
    var versionReply := conn.Query(VersionStatement);
    if !versionReply.Answered? {
      r := if versionReply.Errored? then Stopped(1, FaultMessage(versionReply.fault)) else Stuck(1);
      return;
    }
    if versionReply.rows == [] {
      r := Stopped(1, NoVersionRowMessage);
      return;
    }
    var version := Column(versionReply.rows[0], "version");
    var statusReply := conn.Query(StatusStatement);
    if !statusReply.Answered? {
      r := if statusReply.Errored? then Stopped(2, FaultMessage(statusReply.fault)) else Stuck(2);
      return;
    }
    var status := NameValueMap(statusReply.rows);
    var variableReply := conn.Query(VariablesStatement);
    if !variableReply.Answered? {
      r := if variableReply.Errored? then Stopped(3, FaultMessage(variableReply.fault)) else Stuck(3);
      return;
    }
    var variables := NameValueMap(variableReply.rows);
    var processReply := conn.Query(ProcessListStatement);
    if !processReply.Answered? {
      r := if processReply.Errored? then Stopped(4, FaultMessage(processReply.fault)) else Stuck(4);
      return;
    }
    var databaseReply := conn.Query(DatabasesStatement);
    if !databaseReply.Answered? {
      r := if databaseReply.Errored? then Stopped(5, FaultMessage(databaseReply.fault)) else Stuck(5);
      return;
    }
    r := Report(DatabaseInfo(version, UptimeStatus(status), variables, processReply.rows, Databases(databaseReply.rows)));
  }

  /** What a call did, besides its outcome: whether it borrowed and released a connection, and what it sent on it. */
  datatype InfoRun = InfoRun(outcome: Settlement<DatabaseInfo>, borrowed: bool, released: bool, issued: seq<string>)

  /** What the tool does for a validated environment, given the names that have a pool and what the pool does. */
  function RunInfo(params: InfoParams, registered: set<string>, acquire: Acquire): InfoRun {
    var name := EnvName(params.environment);
    if name !in registered then
      InfoRun(Rejected(Error(NoPoolMessage(name))), false, false, [])
    else
      InspectOn(acquire)
  }

  /** The part after the pool lookup: borrow, inspect, release in `finally`, wrap any failure. */
  function InspectOn(acquire: Acquire): InfoRun {
    match acquire
    case Blocked => InfoRun(Pending, false, false, [])
    case Refused(fault) => InfoRun(Rejected(Error(InfoFailedPrefix + FaultMessage(fault))), false, false, [])
    case Granted(server) =>
      var r := Inspect(server);
      var issued := InfoStatements[..Issued(r)];
      match r
      case Report(info) => InfoRun(Fulfilled(info), true, true, issued)
      case Stopped(_, message) => InfoRun(Rejected(Error(InfoFailedPrefix + message)), true, true, issued)
      case Stuck(_) => InfoRun(Pending, true, false, issued)
  }

  /**
   * A borrowed connection goes back to the pool exactly when every statement
   * sent on it settled; one statement that never settles keeps it for ever,
   * and the call never settles either.
   */
  lemma ReleasedUnlessStuck(params: InfoParams, registered: set<string>, acquire: Acquire)
    ensures var run := RunInfo(params, registered, acquire);
      && (run.borrowed <==> EnvName(params.environment) in registered && acquire.Granted?)
      && (run.released <==> run.borrowed && !Inspect(acquire.server).Stuck?)
      && (run.borrowed && !run.released ==> run.outcome.Pending?)
      && |run.issued| <= 5 && run.issued == InfoStatements[..|run.issued|]
  {
    if acquire.Granted? {
      StopsAtFirstFailure(acquire.server);
    }
  }

  /** A failure after the pool lookup is its inner message behind the fixed prefix; the lookup's own failure is not wrapped. */
  lemma FailuresWrapped(params: InfoParams, registered: set<string>, acquire: Acquire)
    ensures var run := RunInfo(params, registered, acquire);
      && (EnvName(params.environment) !in registered ==>
            run.outcome == Rejected(Error("No connection pool available for environment: " + EnvName(params.environment))))
      && (EnvName(params.environment) in registered && acquire.Refused? ==>
            run.outcome == Rejected(Error(InfoFailedPrefix + FaultMessage(acquire.fault))))
      && (EnvName(params.environment) in registered && acquire.Granted? && Inspect(acquire.server).Stopped? ==>
            run.outcome == Rejected(Error(InfoFailedPrefix + Inspect(acquire.server).message)))
  {
  }

  /**
   * The `try`/`finally` of `runInfoTool` on the environment's pool. `conn` is the
   * connection it borrowed, if any.
   */
  method InspectPool(pool: Pool, acquire: Acquire) returns (outcome: Settlement<DatabaseInfo>, ghost conn: Connection?)
    modifies pool
    ensures var run := InspectOn(acquire);
      && outcome == run.outcome
      && (conn != null <==> run.borrowed)
      && (conn != null ==>
            fresh(conn) && conn.pool == pool && conn.issued == run.issued
            && conn.releases == (if run.released then 1 else 0))
      && pool.borrowed == old(pool.borrowed) + (if run.borrowed then 1 else 0)
      && pool.released == old(pool.released) + (if run.released then 1 else 0)
      && pool.endCalls == old(pool.endCalls)
  {
    conn := null;
    var borrow := pool.GetConnection(acquire);
    match borrow
    case Waiting =>
      outcome := Pending;
    case Failed(fault) =>
      outcome := Rejected(Error(InfoFailedPrefix + FaultMessage(fault)));
    case Lent(connection) =>
      conn := connection;
      var r := CollectInfo(connection);
      if r.Stuck? {
        outcome := Pending;
      } else {
        connection.Release();
        outcome := if r.Report? then Fulfilled(r.info) else Rejected(Error(InfoFailedPrefix + r.message));
      }
  }

  /**
   * `runInfoTool`: look the environment's pool up, then inspect the server on it.
   * Only that pool's counters move.
   */
  method RunInfoTool(registry: PoolRegistry, params: InfoParams, acquire: Acquire)
    returns (outcome: Settlement<DatabaseInfo>, ghost conn: Connection?)
    modifies registry.pools.Values
    ensures var run := RunInfo(params, registry.pools.Keys, acquire);
      && outcome == run.outcome
      && (conn != null <==> run.borrowed)
      && (conn != null ==>
            && fresh(conn) && EnvName(params.environment) in registry.pools
            && conn.pool == registry.pools[EnvName(params.environment)]
            && conn.issued == run.issued && conn.releases == (if run.released then 1 else 0))
      && (forall p :: p in registry.pools.Values ==>
            && p.borrowed == old(p.borrowed) + Moved(registry.pools, Some(EnvName(params.environment)), p, run.borrowed)
            && p.released == old(p.released) + Moved(registry.pools, Some(EnvName(params.environment)), p, run.released)
            && p.endCalls == old(p.endCalls))
  {
    conn := null;
    var name := EnvName(params.environment);
    var pool := registry.Get(name);
    if pool.None? {
      outcome := Rejected(Error(NoPoolMessage(name)));
      return;
    }
    outcome, conn := InspectPool(pool.value, acquire);
  }
}
