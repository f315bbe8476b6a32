/**
 * The query tool: a textual read-only gate, then environment validation and
 * pool lookup, then one statement on a borrowed connection raced against a
 * timer, with the connection released on every path that borrowed it.
 */
module QueryTool {
  import opened Wrappers
  import opened Collections
  import opened JsText
  import opened Types
  import opened Driver
  import opened Pools

  /** The statement words the gate lets through. */
  const ReadOnlyKeywords: seq<string> := ["SELECT", "SHOW", "DESCRIBE", "DESC"]

  /** The gate: the trimmed, upper-cased statement starts with one of the read-only words. */
  predicate IsReadOnlyQuery(sql: string) {
    var upper := ToUpper(Trim(sql));
    StartsWith(upper, "SELECT") || StartsWith(upper, "SHOW")
    || StartsWith(upper, "DESCRIBE") || StartsWith(upper, "DESC")
  }

  /** "DESCRIBE" adds nothing to the gate: every statement it admits, "DESC" admits too. */
  lemma DescribeSubsumedByDesc(sql: string)
    ensures IsReadOnlyQuery(sql) <==>
      var upper := ToUpper(Trim(sql));
      StartsWith(upper, "SELECT") || StartsWith(upper, "SHOW") || StartsWith(upper, "DESC")
  {
    var upper := ToUpper(Trim(sql));
    if StartsWith(upper, "DESCRIBE") {
      assert upper[..4] == upper[..8][..4];
    }
  }

  /** Leading whitespace of any kind: `\s*`. */
  predicate AllTrimmable(s: string) {
    forall k :: 0 <= k < |s| ==> IsTrimmable(s[k])
  }

  /**
   * The gate ignores case and leading whitespace: any whitespace, then a read-only
   * word in any mix of cases, then anything at all, is accepted.
   */
  lemma {:induction false} AcceptsAnyCaseAfterWhitespace(ws: string, w: string, kw: string, rest: string)
    requires AllTrimmable(ws)
    requires kw in ReadOnlyKeywords && CaseVariant(w, kw)
    ensures IsReadOnlyQuery(ws + w + rest)
  {
    assert IsAsciiUpper(kw[0]) && UpperChar(w[0]) == [kw[0]];
    LetterNotTrimmable(w[0], kw[0]);
    assert IsAsciiUpper(kw[|w| - 1]) && UpperChar(w[|w| - 1]) == [kw[|w| - 1]];
    LetterNotTrimmable(w[|w| - 1], kw[|w| - 1]);
    assert ws + w + rest == ws + (w + rest);
    TrimStartSkips(ws, w + rest);
    TrimEndKeeps(w, rest);
    UpperStartsWith(Trim(ws + w + rest), w, kw);
  }

  /** The statement `s` has, after leading whitespace at `i`, a case variant of `kw`: `^\s*kw`, ignoring case. */
  predicate KeywordAt(s: string, i: int, kw: string) {
    0 <= i && i + |kw| <= |s| && AllTrimmable(s[..i]) && CaseVariant(s[i..i + |kw|], kw)
  }

  /**
   * On ASCII text the gate is exactly the pattern `^\s*(SELECT|SHOW|DESCRIBE|DESC)`
   * matched without regard to case.
   */
  lemma AsciiGateIsPattern(s: string)
    requires forall k :: 0 <= k < |s| ==> IsAscii(s[k])
    ensures IsReadOnlyQuery(s) <==> exists i, kw :: kw in ReadOnlyKeywords && KeywordAt(s, i, kw)
  {
    if IsReadOnlyQuery(s) {
      var i, kw := AsciiGateMatch(s);
    }
    if exists i, kw :: kw in ReadOnlyKeywords && KeywordAt(s, i, kw) {
      var i, kw :| kw in ReadOnlyKeywords && KeywordAt(s, i, kw);
      PatternAccepted(s, i, kw);
    }
  }

  /** A statement that matches the pattern at `i` with `kw` is admitted, ASCII or not. */
  lemma PatternAccepted(s: string, i: int, kw: string)
    requires kw in ReadOnlyKeywords && KeywordAt(s, i, kw)
    ensures IsReadOnlyQuery(s)
  {
    assert s == s[..i] + s[i..i + |kw|] + s[i + |kw|..];
    AcceptsAnyCaseAfterWhitespace(s[..i], s[i..i + |kw|], kw, s[i + |kw|..]);
  }

  /** Where an admitted ASCII statement has its keyword, and which one it is. */
  lemma AsciiGateMatch(s: string) returns (i: int, kw: string)
    requires forall k :: 0 <= k < |s| ==> IsAscii(s[k])
    requires IsReadOnlyQuery(s)
    ensures kw in ReadOnlyKeywords && KeywordAt(s, i, kw)
  {
    var trimmed := Trim(s);
    i := TrimLocated(s);
    AsciiSlice(s, i, i + |trimmed|);
    kw := MatchedKeyword(ToUpper(trimmed));
    AsciiUpperPrefix(trimmed, kw);
    KeywordAtTrimmed(s, i, trimmed, kw);
  }

  /** A case variant of `kw` opening the text that follows leading whitespace at `i` is a match at `i`. */
  lemma KeywordAtTrimmed(s: string, i: int, t: string, kw: string)
    requires 0 <= i && i + |t| <= |s| && t == s[i..i + |t|] && AllTrimmable(s[..i])
    requires |kw| <= |t| && CaseVariant(t[..|kw|], kw)
    ensures KeywordAt(s, i, kw)
  {
    assert s[i..i + |kw|] == t[..|kw|];
  }

  /** The trimmed text sits in `s` right after the leading whitespace. */
  lemma TrimLocated(s: string) returns (i: nat)
    ensures i + |Trim(s)| <= |s| && Trim(s) == s[i..i + |Trim(s)|] && AllTrimmable(s[..i])
  {
    var start := TrimStart(s);
    i := |s| - |start|;
    assert AllTrimmable(s[..i]) by {
      forall k | 0 <= k < i ensures IsTrimmable(s[..i][k]) {
        assert s[..i][k] == s[k];
      }
    }
  }

  /** A slice of ASCII text is ASCII. */
  lemma AsciiSlice(s: string, i: int, j: int)
    requires 0 <= i <= j <= |s|
    requires forall k :: 0 <= k < |s| ==> IsAscii(s[k])
    ensures forall k :: 0 <= k < j - i ==> IsAscii(s[i..j][k])
  {
    forall k | 0 <= k < j - i ensures IsAscii(s[i..j][k]) {
      assert s[i..j][k] == s[i + k];
    }
  }

  /** The first read-only word, in the gate's order, that `upper` starts with. */
  function MatchedKeyword(upper: string): (kw: string)
    requires StartsWith(upper, "SELECT") || StartsWith(upper, "SHOW")
          || StartsWith(upper, "DESCRIBE") || StartsWith(upper, "DESC")
    ensures kw in ReadOnlyKeywords && StartsWith(upper, kw)
  {
    if StartsWith(upper, "SELECT") then "SELECT"
    else if StartsWith(upper, "SHOW") then "SHOW"
    else if StartsWith(upper, "DESCRIBE") then "DESCRIBE"
    else "DESC"
  }

  /** An ASCII string whose upper-case form starts with a word starts with a case variant of it. */
  lemma AsciiUpperPrefix(t: string, kw: string)
    requires forall k :: 0 <= k < |t| ==> IsAscii(t[k])
    requires StartsWith(ToUpper(t), kw)
    ensures |kw| <= |t| && CaseVariant(t[..|kw|], kw)
  {
    ToUpperAscii(t);
    var upper := ToUpper(t);
    forall k | 0 <= k < |kw| ensures UpperChar(t[..|kw|][k]) == [kw[k]] {
      assert t[..|kw|][k] == t[k];
      assert upper[k] == upper[..|kw|][k];
    }
  }

  /** The write statements the gate refuses. */
  const WriteKeywords: seq<string> := ["INSERT", "UPDATE", "DELETE", "DROP", "CREATE"]

  /** A statement that, trimmed and upper-cased, starts with a write word is refused. */
  lemma RejectsWriteStatements(sql: string, kw: string)
    requires kw in WriteKeywords && StartsWith(ToUpper(Trim(sql)), kw)
    ensures !IsReadOnlyQuery(sql)
  {
    var upper := ToUpper(Trim(sql));
    WriteInitials(kw);
    assert upper[..|kw|] == kw;
    assert upper[0] == kw[0] && upper[1] == kw[1] && upper[2] == kw[2] by {
      assert upper[..|kw|][0] == upper[0] && upper[..|kw|][1] == upper[1] && upper[..|kw|][2] == upper[2];
    }
    if IsReadOnlyQuery(sql) {
      ReadOnlyInitials(upper);
    }
  }

  /** No write word starts like a read-only one: not with "S", and not with "DES". */
  lemma WriteInitials(kw: string)
    requires kw in WriteKeywords
    ensures |kw| >= 3 && kw[0] != 'S' && !(kw[0] == 'D' && kw[1] == 'E' && kw[2] == 'S')
  {
  }

  /** What an admitted statement's upper-cased text starts with: "SE", "SH" or "DES". */
  lemma ReadOnlyInitials(upper: string)
    requires StartsWith(upper, "SELECT") || StartsWith(upper, "SHOW")
          || StartsWith(upper, "DESCRIBE") || StartsWith(upper, "DESC")
    ensures |upper| >= 4
    ensures (upper[0] == 'S' && (upper[1] == 'E' || upper[1] == 'H'))
         || (upper[0] == 'D' && upper[1] == 'E' && upper[2] == 'S')
  {
    if StartsWith(upper, "DESCRIBE") {
      assert upper[..4] == upper[..8][..4];
    }
  }

  /** The gate is a prefix test only: a write statement after a semicolon slips through. */
  lemma PrefixTestOnly()
    ensures IsReadOnlyQuery("SELECT 1; DROP TABLE users")
  {
    assert CaseVariant("SELECT", "SELECT");
    assert "" + "SELECT" + " 1; DROP TABLE users" == "SELECT 1; DROP TABLE users";
    AcceptsAnyCaseAfterWhitespace("", "SELECT", "SELECT", " 1; DROP TABLE users");
  }

  /** "SELEC" and U+1E97, which upper-cases to "T" and a combining diaeresis. */
  const SelecWithDiaeresis: string := "SELEC\U{1E97}"

  /**
   * The gate admits `SelecWithDiaeresis`: it upper-cases to "SELECT" and a
   * combining diaeresis. With `NonAsciiOutsidePattern`, this is why the pattern
   * equivalence `AsciiGateIsPattern` holds for ASCII text only.
   */
  lemma NonAsciiAdmitted()
    ensures IsReadOnlyQuery(SelecWithDiaeresis)
  {
    var w, c := "SELEC", '\U{1E97}';
    assert SelecWithDiaeresis == w + [c];
    assert CaseVariant(w, "SELEC");
    UpperOfVariantThen(w, "SELEC", c);
    assert !IsTrimmable(w[0]) && !IsTrimmable(c);
    assert StartsWith("SELECT\U{0308}", "SELECT");
  }

  /** A case variant of `kw` followed by `c` upper-cases to `kw` followed by the upper-case form of `c`. */
  lemma UpperOfVariantThen(w: string, kw: string, c: char)
    requires CaseVariant(w, kw)
    ensures ToUpper(w + [c]) == kw + UpperChar(c)
  {
    ToUpperAppend(w, [c]);
    CaseVariantUpper(w, kw);
  }

  /** No prefix of `SelecWithDiaeresis` is a case variant of a read-only word: the pattern does not match it. */
  lemma NonAsciiOutsidePattern()
    ensures forall i, kw :: kw in ReadOnlyKeywords ==> !KeywordAt(SelecWithDiaeresis, i, kw)
  {
    forall i, kw | kw in ReadOnlyKeywords ensures !KeywordAt(SelecWithDiaeresis, i, kw) {
      NoKeywordAt(i, kw);
    }
  }

  /** One position and one word at a time: the first character is not whitespace, and no word fits from it. */
  lemma NoKeywordAt(i: int, kw: string)
    requires kw in ReadOnlyKeywords
    ensures !KeywordAt(SelecWithDiaeresis, i, kw)
  {
    var s := SelecWithDiaeresis;
    if 0 < i <= |s| {
      assert s[..i][0] == s[0];
    } else if i == 0 && kw == "SELECT" {
      assert s[0..6][5] == s[5];
    } else if i == 0 && kw == "SHOW" {
      assert s[0..4][1] == s[1];
    } else if i == 0 && kw == "DESC" {
      assert s[0..4][0] == s[0];
    }
  }

  /** The message that refuses a statement the gate does not admit. */
  const ReadOnlyMessage: string := "Only SELECT, SHOW, DESCRIBE, and DESC queries are allowed"

  /** The prefix every failure after the pool lookup is wrapped in. */
  const QueryFailedPrefix: string := "Query execution failed: "

  /** The rejection the timer raises. */
  function TimeoutMessage(timeout: int): string {
    "Query timeout after " + IntToString(timeout) + "ms"
  }

  /** The arguments the tool takes: the statement, the environment as given, and an optional timeout. */
  datatype QueryInput = QueryInput(sql: string, environment: string, timeout: Option<int>)

  /** A field descriptor as the tool reports it. */
  datatype FieldInfo = FieldInfo(name: string, fieldType: string, length: int)

  /** The structured result: rows as the driver gave them, field descriptors, elapsed time and row count. */
  datatype QueryResult = QueryResult(rows: seq<Row>, fields: seq<FieldInfo>, executionTime: int, rowCount: int)

  /** Only name, type and length of a driver descriptor are kept. */
  function DescribeField(f: FieldPacket): FieldInfo {
    FieldInfo(f.name, f.fieldType, f.length)
  }

  /** The descriptors reported for the driver's ones: one each, in the same order, name/type/length copied. */
  function ShapeFields(fields: seq<FieldPacket>): (r: seq<FieldInfo>)
    ensures |r| == |fields|
    ensures forall i :: 0 <= i < |fields| ==>
      r[i].name == fields[i].name && r[i].fieldType == fields[i].fieldType && r[i].length == fields[i].length
  {
    Map(fields, DescribeField)
  }

  /** What a call did, besides its outcome: whether it borrowed and released a connection, and what it sent on it. */
  datatype QueryRun = QueryRun(outcome: Settlement<QueryResult>, borrowed: bool, released: bool, issued: seq<string>)

  /** The timeout in effect: the one given, or the default. */
  function EffectiveTimeout(input: QueryInput): int {
    if input.timeout.Some? then input.timeout.value else DefaultTimeout
  }

  /**
   * What the tool does for `input`, given the environment names that have a pool,
   * what the pool does when asked for a connection, and the elapsed time it measures.
   */
  function RunQuery(input: QueryInput, registered: set<string>, acquire: Acquire, elapsed: int): QueryRun {
    match Refusal(input, registered)
    case Some(error) => QueryRun(Rejected(error), false, false, [])
    case None => Execute(input.sql, EffectiveTimeout(input), acquire, elapsed)
  }

  /**
   * The checks made before any pool is touched, in their order: the read-only
   * gate, the environment name, the pool lookup. `None` when all pass.
   */
  function Refusal(input: QueryInput, registered: set<string>): (r: Option<ToolError>)
    ensures r.None? ==> input.environment in registered
  {
    if !IsReadOnlyQuery(input.sql) then Some(Error(ReadOnlyMessage))
    else if ParseEnvironment(input.environment).None? then Some(ValidationError([Issue([], InvalidEnumValue)]))
    else if input.environment !in registered then Some(Error(NoPoolMessage(input.environment)))
    else None
  }

  /** The part after the pool lookup: borrow, race the statement against the timer, release, wrap. */
  function Execute(sql: string, timeout: int, acquire: Acquire, elapsed: int): QueryRun {
    match acquire
    case Blocked => QueryRun(Pending, false, false, [])
    case Refused(fault) => QueryRun(Rejected(Error(QueryFailedPrefix + FaultMessage(fault))), false, false, [])
    case Granted(server) =>
      var outcome :=
        match server(0, sql)
        case Answered(rows, fields) => Fulfilled(QueryResult(rows, ShapeFields(fields), elapsed, |rows|))
        case Errored(fault) => Rejected(Error(QueryFailedPrefix + FaultMessage(fault)))
        case Unsettled => Rejected(Error(QueryFailedPrefix + TimeoutMessage(timeout)));
      QueryRun(outcome, true, true, [sql])
  }

  /** The checks pass exactly when the gate admits the statement, the name is an environment and it has a pool. */
  lemma RefusalNone(input: QueryInput, registered: set<string>)
    ensures Refusal(input, registered).None? <==>
      IsReadOnlyQuery(input.sql) && ParseEnvironment(input.environment).Some? && input.environment in registered
  {
  }

  /** A refused call is rejected with the refusal and touches nothing; an admitted one is `Execute`. */
  lemma RunQueryCases(input: QueryInput, registered: set<string>, acquire: Acquire, elapsed: int)
    ensures var run := RunQuery(input, registered, acquire, elapsed);
      && (Refusal(input, registered).Some? ==>
            run == QueryRun(Rejected(Refusal(input, registered).value), false, false, []))
      && (Refusal(input, registered).None? ==> run == Execute(input.sql, EffectiveTimeout(input), acquire, elapsed))
  {
  }

  /**
   * After the lookup: the call waits for ever exactly when the pool does, succeeds
   * exactly when the statement answers, fails only with an error, and borrows,
   * releases and sends the statement exactly when a connection is granted.
   */
  lemma ExecuteSettles(sql: string, timeout: int, acquire: Acquire, elapsed: int)
    ensures var run := Execute(sql, timeout, acquire, elapsed);
      && (run.outcome.Pending? <==> acquire.Blocked?)
      && (run.outcome.Fulfilled? <==> acquire.Granted? && acquire.server(0, sql).Answered?)
      && (run.outcome.Rejected? ==> run.outcome.error.Error?)
      && run.borrowed == acquire.Granted? && run.released == run.borrowed
      && run.issued == (if run.borrowed then [sql] else [])
  {
    if acquire.Granted? {
      assert Execute(sql, timeout, acquire, elapsed).borrowed;
    }
  }

  /** A statement the gate refuses is rejected with the fixed message before anything else happens. */
  lemma WriteRejectedFirst(input: QueryInput, registered: set<string>, acquire: Acquire, elapsed: int)
    requires !IsReadOnlyQuery(input.sql)
    ensures var run := RunQuery(input, registered, acquire, elapsed);
      run.outcome == Rejected(Error(ReadOnlyMessage)) && !run.borrowed && run.issued == []
  {
  }

  /** An admitted statement for an environment without a pool is rejected, unwrapped, without borrowing. */
  lemma MissingPoolRejected(input: QueryInput, registered: set<string>, acquire: Acquire, elapsed: int)
    requires IsReadOnlyQuery(input.sql) && ParseEnvironment(input.environment).Some?
    requires input.environment !in registered
    ensures var run := RunQuery(input, registered, acquire, elapsed);
      && run.outcome == Rejected(Error("No connection pool available for environment: " + input.environment))
      && !run.borrowed && run.issued == []
  {
  }

  /**
   * A connection is borrowed exactly when the gate, the environment and the lookup
   * all pass and the pool grants one; a borrowed connection is released, once, and
   * the statement is the only thing sent on it.
   */
  lemma ReleaseExactlyOnce(input: QueryInput, registered: set<string>, acquire: Acquire, elapsed: int)
    ensures var run := RunQuery(input, registered, acquire, elapsed);
      && (run.borrowed <==> IsReadOnlyQuery(input.sql) && ParseEnvironment(input.environment).Some?
                            && input.environment in registered && acquire.Granted?)
      && run.released == run.borrowed
      && run.issued == (if run.borrowed then [input.sql] else [])
  {
    RefusalNone(input, registered);
    RunQueryCases(input, registered, acquire, elapsed);
    ExecuteSettles(input.sql, EffectiveTimeout(input), acquire, elapsed);
  }

  /** The call stays unsettled only when the pool never hands out a connection. */
  lemma PendingOnlyWhenBlocked(input: QueryInput, registered: set<string>, acquire: Acquire, elapsed: int)
    ensures RunQuery(input, registered, acquire, elapsed).outcome.Pending? <==>
      IsReadOnlyQuery(input.sql) && ParseEnvironment(input.environment).Some?
      && input.environment in registered && acquire.Blocked?
  {
    RefusalNone(input, registered);
    RunQueryCases(input, registered, acquire, elapsed);
    ExecuteSettles(input.sql, EffectiveTimeout(input), acquire, elapsed);
  }

  /**
   * Every failure after the pool lookup is the inner message behind the fixed prefix:
   * the pool's fault, the statement's fault, or the timer's message with the timeout in effect.
   */
  lemma FailuresWrapped(input: QueryInput, registered: set<string>, acquire: Acquire, elapsed: int)
    requires IsReadOnlyQuery(input.sql) && ParseEnvironment(input.environment).Some?
    requires input.environment in registered
    ensures var run := RunQuery(input, registered, acquire, elapsed);
      && (acquire.Refused? ==> run.outcome == Rejected(Error(QueryFailedPrefix + FaultMessage(acquire.fault))))
      && (acquire.Granted? && acquire.server(0, input.sql).Errored? ==>
            run.outcome == Rejected(Error(QueryFailedPrefix + FaultMessage(acquire.server(0, input.sql).fault))))
      && (acquire.Granted? && acquire.server(0, input.sql).Unsettled? ==>
            run.outcome == Rejected(Error(QueryFailedPrefix + TimeoutMessage(EffectiveTimeout(input)))))
      && (run.outcome.Rejected? ==> run.outcome.error.Error? && StartsWith(run.outcome.error.message, QueryFailedPrefix))
  {
    var run := RunQuery(input, registered, acquire, elapsed);
    if run.outcome.Rejected? {
      var m := run.outcome.error.message;
      PrefixStartsWith(QueryFailedPrefix, m[|QueryFailedPrefix|..]);
    }
  }

  lemma PrefixStartsWith(p: string, s: string)
    ensures StartsWith(p + s, p)
  {
    assert (p + s)[..|p|] == p;
  }

  /** The only schema error the tool itself raises is the environment check's, after the gate. */
  lemma IssuesOnlyFromEnvironmentCheck(input: QueryInput, registered: set<string>, acquire: Acquire, elapsed: int)
    ensures var outcome := RunQuery(input, registered, acquire, elapsed).outcome;
      outcome.Rejected? && outcome.error.ValidationError? <==>
        IsReadOnlyQuery(input.sql) && ParseEnvironment(input.environment).None?
  {
    RunQueryCases(input, registered, acquire, elapsed);
    ExecuteSettles(input.sql, EffectiveTimeout(input), acquire, elapsed);
  }

  /** Without a timeout the timer runs for 30000 ms, and its message says so. */
  lemma DefaultTimeoutApplies(input: QueryInput)
    requires input.timeout.None?
    ensures EffectiveTimeout(input) == 30000
    ensures TimeoutMessage(EffectiveTimeout(input)) == "Query timeout after 30000ms"
  {
    assert NatToString(3) == "3";
    assert NatToString(30) == "30";
    assert NatToString(300) == "300";
    assert NatToString(3000) == "3000";
    assert NatToString(30000) == "30000";
  }

  /**
   * A call succeeds exactly when every check passes and the statement answers in
   * time; its rows are the driver's, its row count is their number, and its fields
   * are the driver's descriptors cut down to name, type and length.
   */
  lemma SuccessShape(input: QueryInput, registered: set<string>, acquire: Acquire, elapsed: int)
    ensures var run := RunQuery(input, registered, acquire, elapsed);
      run.outcome.Fulfilled? <==>
        IsReadOnlyQuery(input.sql) && ParseEnvironment(input.environment).Some?
        && input.environment in registered && acquire.Granted? && acquire.server(0, input.sql).Answered?
    ensures var run := RunQuery(input, registered, acquire, elapsed);
      run.outcome.Fulfilled? ==>
        var reply := acquire.server(0, input.sql);
        var result := run.outcome.value;
        && result.rows == reply.rows
        && result.rowCount == |result.rows|
        && |result.fields| == |reply.fields|
        && (forall i :: 0 <= i < |reply.fields| ==>
              result.fields[i] == FieldInfo(reply.fields[i].name, reply.fields[i].fieldType, reply.fields[i].length))
        && result.executionTime == elapsed
  {
    RefusalNone(input, registered);
    RunQueryCases(input, registered, acquire, elapsed);
    ExecuteSettles(input.sql, EffectiveTimeout(input), acquire, elapsed);
  }

  /**
   * The `try`/`finally` of `runQueryTool` on the environment's pool: borrow a
   * connection, race the statement against the timer, release the connection,
   * wrap any failure. `conn` is the connection it borrowed, if any.
   */
  method ExecuteOn(pool: Pool, sql: string, timeout: int, acquire: Acquire, elapsed: int)
    returns (outcome: Settlement<QueryResult>, ghost conn: Connection?)
    modifies pool
    ensures var run := Execute(sql, timeout, acquire, elapsed);
      && outcome == run.outcome
      && (conn != null <==> run.borrowed)
      && (conn != null ==>
            fresh(conn) && conn.pool == pool && conn.issued == run.issued && conn.releases == 1)
      && pool.borrowed == old(pool.borrowed) + (if run.borrowed then 1 else 0)
      && pool.released == old(pool.released) + (if run.released then 1 else 0)
      && pool.endCalls == old(pool.endCalls)
  {
    conn := null;
    var borrow := pool.GetConnection(acquire);
    match borrow
    case Waiting =>
      outcome := Pending;
    case Failed(fault) =>
      outcome := Rejected(Error(QueryFailedPrefix + FaultMessage(fault)));
    case Lent(connection) =>
      conn := connection;
      var reply := connection.Query(sql);
      var inner: Result<QueryResult, string> :=
        match reply
        case Answered(rows, fields) => Success(QueryResult(rows, ShapeFields(fields), elapsed, |rows|))
        case Errored(fault) => Failure(FaultMessage(fault))
        case Unsettled => Failure(TimeoutMessage(timeout));
      connection.Release();
      if inner.Success? {
        outcome := Fulfilled(inner.value);
      } else {
        outcome := Rejected(Error(QueryFailedPrefix + inner.error));
      }
  }

  /**
   * `runQueryTool`: the read-only gate, the environment check and the pool lookup,
   * then the statement on the environment's pool. Only that pool's counters move,
   * by one borrow and one release when a connection was lent.
   */
  method RunQueryTool(registry: PoolRegistry, input: QueryInput, acquire: Acquire, elapsed: int)
    returns (outcome: Settlement<QueryResult>, ghost conn: Connection?)
    modifies registry.pools.Values
    ensures var run := RunQuery(input, registry.pools.Keys, acquire, elapsed);
      && outcome == run.outcome
      && (conn != null <==> run.borrowed)
      && (conn != null ==>
            && fresh(conn) && input.environment in registry.pools && conn.pool == registry.pools[input.environment]
            && conn.issued == run.issued && conn.releases == 1)
      && (forall p :: p in registry.pools.Values ==>
            && p.borrowed == old(p.borrowed) + Moved(registry.pools, Some(input.environment), p, run.borrowed)
            && p.released == old(p.released) + Moved(registry.pools, Some(input.environment), p, run.released)
            && p.endCalls == old(p.endCalls))
  {
    conn := null;
    RunQueryCases(input, registry.pools.Keys, acquire, elapsed);
    var refusal := Refusal(input, registry.pools.Keys);
    if refusal.Some? {
      outcome := Rejected(refusal.value);
      return;
    }
    var timeout := EffectiveTimeout(input);
    outcome, conn := ExecuteRegistered(registry, input.environment, input.sql, timeout, acquire, elapsed);
  }

  /** `ExecuteOn` on the pool registered under `key`: only that pool's counters move. */
  method ExecuteRegistered(registry: PoolRegistry, key: string, sql: string, timeout: int, acquire: Acquire, elapsed: int)
    returns (outcome: Settlement<QueryResult>, ghost conn: Connection?)
    requires key in registry.pools
    modifies registry.pools.Values
    ensures var run := Execute(sql, timeout, acquire, elapsed);
      && outcome == run.outcome
      && (conn != null <==> run.borrowed)
      && (conn != null ==>
            && fresh(conn) && conn.pool == registry.pools[key]
            && conn.issued == run.issued && conn.releases == 1)
      && (forall p :: p in registry.pools.Values ==>
            && p.borrowed == old(p.borrowed) + Moved(registry.pools, Some(key), p, run.borrowed)
            && p.released == old(p.released) + Moved(registry.pools, Some(key), p, run.released)
            && p.endCalls == old(p.endCalls))
  {
    outcome, conn := ExecuteOn(registry.pools[key], sql, timeout, acquire, elapsed);
  }
}
