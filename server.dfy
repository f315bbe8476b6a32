/**
 * The server's request handlers: the tool list, the dispatch of a tool call to
 * its schema and its tool, and the cleanup that ends every pool on shutdown.
 */
module Server {
  import opened Wrappers
  import opened Collections
  import opened JsText
  import opened Types
  import opened Driver
  import opened Pools
  import opened QueryTool
  import opened InfoTool
  import opened EnvironmentsTool

  const QueryToolName: string := "query"
  const InfoToolName: string := "info"
  const EnvironmentsToolName: string := "environments"

  /** One property of a tool's input schema. `enumValues` is empty when the property has no enum. */
  datatype PropertySchema = PropertySchema(name: string, jsonType: string, enumValues: seq<string>, description: string)

  /** One entry of the tool list. */
  datatype ToolDescriptor = ToolDescriptor(name: string, description: string, properties: seq<PropertySchema>, required: seq<string>)

  const EnvironmentNames: seq<string> := ["local", "development", "staging", "production"]

  const QueryDescriptor: ToolDescriptor :=
    ToolDescriptor(QueryToolName, "Execute read-only SQL queries against MySQL databases",
      [ PropertySchema("sql", "string", [], "SQL query to execute (SELECT and SHOW only)"),
        PropertySchema("environment", "string", EnvironmentNames, "Target environment to run the query against"),
        PropertySchema("timeout", "number", [], "Query timeout in milliseconds (default: 30000)") ],
      ["sql", "environment"])

  const InfoDescriptor: ToolDescriptor :=
    ToolDescriptor(InfoToolName, "Get information about MySQL databases",
      [ PropertySchema("environment", "string", EnvironmentNames, "Target environment to get information from") ],
      ["environment"])

  const EnvironmentsDescriptor: ToolDescriptor :=
    ToolDescriptor(EnvironmentsToolName, "List available MySQL database environments", [], [])

  /** The `ListTools` handler's answer. */
  function ListTools(): seq<ToolDescriptor> {
    [QueryDescriptor, InfoDescriptor, EnvironmentsDescriptor]
  }

  /**
   * A descriptor the client can rely on: every required property is declared,
   * and every enum of environments lists exactly the environment schema's names
   * in its order.
   */
  ghost predicate Consistent(t: ToolDescriptor) {
    && (forall r :: r in t.required ==> exists p :: p in t.properties && p.name == r)
    && (forall p :: p in t.properties && p.enumValues != [] ==> p.enumValues == Names(AllEnvironments))
  }

  lemma EnvironmentNamesAreNames()
    ensures Names(AllEnvironments) == EnvironmentNames
  {
    AllEnvironmentsInOrder();
    assert |Names(AllEnvironments)| == 4;
  }

  lemma QueryDescriptorConsistent()
    ensures Consistent(QueryDescriptor)
  {
    EnvironmentNamesAreNames();
    var t := QueryDescriptor;
    assert t.properties[0].name == "sql" && t.properties[1].name == "environment";
  }

  lemma InfoDescriptorConsistent()
    ensures Consistent(InfoDescriptor)
  {
    EnvironmentNamesAreNames();
    assert InfoDescriptor.properties[0].name == "environment";
  }

  /**
   * The list names the three tools the dispatcher routes, each once, and every
   * descriptor in it is consistent.
   */
  lemma ListToolsAgreesWithDispatch()
    ensures var tools := ListTools();
      && |tools| == 3
      && tools[0].name == QueryToolName && tools[1].name == InfoToolName && tools[2].name == EnvironmentsToolName
      && forall t :: t in tools ==> Consistent(t)
  {
    QueryDescriptorConsistent();
    InfoDescriptorConsistent();
  }

  /** What a tool call answers with, by tool. */
  datatype ToolResponse =
    | QueryResponse(query: QueryResult)
    | InfoResponse(info: DatabaseInfo)
    | EnvironmentsResponse(environments: EnvironmentsResult)

  /**
   * What a tool call did: its outcome, the pool key it used, if any, and whether
   * it borrowed and released a connection from that pool.
   */
  datatype Call = Call(outcome: Settlement<ToolResponse>, target: Option<string>, borrowed: bool, released: bool)

  function LiftQuery(s: Settlement<QueryResult>): Settlement<ToolResponse> {
    match s
    case Fulfilled(v) => Fulfilled(QueryResponse(v))
    case Rejected(e) => Rejected(e)
    case Pending => Pending
  }

  function LiftInfo(s: Settlement<DatabaseInfo>): Settlement<ToolResponse> {
    match s
    case Fulfilled(v) => Fulfilled(InfoResponse(v))
    case Rejected(e) => Rejected(e)
    case Pending => Pending
  }

  /** The message for a name the switch does not know. */
  function UnknownToolMessage(name: string): string {
    "Unknown tool: " + name
  }

  /** The `query` case of the switch: parse with `QueryParams`, then run the query tool. */
  function DispatchQuery(args: Option<Args>, registered: set<string>, acquire: Acquire, elapsed: int): Call {
    match ParseQueryParams(args)
    case Failure(issues) => Call(Rejected(ValidationError(issues)), None, false, false)
    case Success(p) =>
      var input := QueryInput(p.sql, EnvName(p.environment), Some(p.timeout));
      var run := RunQuery(input, registered, acquire, elapsed);
      Call(LiftQuery(run.outcome), Some(input.environment), run.borrowed, run.released)
  }

  /** The `info` case of the switch: parse with `InfoParams`, then run the info tool. */
  function DispatchInfo(args: Option<Args>, registered: set<string>, acquire: Acquire): Call {
    match ParseInfoParams(args)
    case Failure(issues) => Call(Rejected(ValidationError(issues)), None, false, false)
    case Success(p) =>
      var run := RunInfo(p, registered, acquire);
      Call(LiftInfo(run.outcome), Some(EnvName(p.environment)), run.borrowed, run.released)
  }

  /** The `environments` case of the switch: parse with `EnvironmentsParams`, then list. */
  function DispatchEnvironments(args: Option<Args>, env: map<string, string>): Call {
    match ParseEnvironmentsParams(args)
    case Failure(issues) => Call(Rejected(ValidationError(issues)), None, false, false)
    case Success(_) => Call(Fulfilled(EnvironmentsResponse(ListEnvironments(env))), None, false, false)
  }

  /**
   * The `CallTool` handler: parse the arguments with the tool's schema, then run
   * the tool on what the schema returns; a schema error rejects the call as it is.
   */
  function Dispatch(name: string, args: Option<Args>, registered: set<string>, env: map<string, string>,
                    acquire: Acquire, elapsed: int): Call {
    if name == QueryToolName then DispatchQuery(args, registered, acquire, elapsed)
    else if name == InfoToolName then DispatchInfo(args, registered, acquire)
    else if name == EnvironmentsToolName then DispatchEnvironments(args, env)
    else Call(Rejected(Error(UnknownToolMessage(name))), None, false, false)
  }

  /** A name other than the three is rejected with its own name in the message, and touches no pool. */
  lemma UnknownToolRejected(name: string, args: Option<Args>, registered: set<string>, env: map<string, string>,
                            acquire: Acquire, elapsed: int)
    requires name != "query" && name != "info" && name != "environments"
    ensures var call := Dispatch(name, args, registered, env, acquire, elapsed);
      && call.outcome == Rejected(Error("Unknown tool: " + name))
      && call.target.None? && !call.borrowed
  {
  }

  /** Arguments the tool's schema refuses reject the call with the schema's issues, before any pool is touched. */
  lemma SchemaErrorsFirst(name: string, args: Option<Args>, registered: set<string>, env: map<string, string>,
                          acquire: Acquire, elapsed: int)
    requires (name == "query" && ParseQueryParams(args).Failure?)
          || (name == "info" && ParseInfoParams(args).Failure?)
          || (name == "environments" && ParseEnvironmentsParams(args).Failure?)
    ensures var call := Dispatch(name, args, registered, env, acquire, elapsed);
      && call.outcome.Rejected? && call.outcome.error.ValidationError? && call.outcome.error.issues != []
      && call.target.None? && !call.borrowed
  {
  }

  /**
   * Through the dispatcher the query tool always gets a valid environment and a
   * timeout: its own environment check never fails, the default timeout comes
   * from the schema, and the read-only gate still runs first.
   */
  lemma DispatchedQueryValidated(args: Option<Args>, registered: set<string>, env: map<string, string>,
                                 acquire: Acquire, elapsed: int)
    requires ParseQueryParams(args).Success?
    ensures var p := ParseQueryParams(args).value;
      var input := QueryInput(p.sql, EnvName(p.environment), Some(p.timeout));
      && ParseEnvironment(input.environment).Some?
      && EffectiveTimeout(input) == (if "timeout" in args.value then args.value["timeout"].n else 30000)
      && var call := Dispatch("query", args, registered, env, acquire, elapsed);
         && !(call.outcome.Rejected? && call.outcome.error.ValidationError?)
         && (!IsReadOnlyQuery(p.sql) ==> call.outcome == Rejected(Error(ReadOnlyMessage)))
  {
    var p := ParseQueryParams(args).value;
    ParseEnvName(p.environment);
    var input := QueryInput(p.sql, EnvName(p.environment), Some(p.timeout));
    IssuesOnlyFromEnvironmentCheck(input, registered, acquire, elapsed);
  }

  /**
   * The dispatcher rethrows what a tool throws unchanged, and a tool's result and
   * its waiting for ever pass through as they are.
   */
  lemma ToolOutcomesPassThrough(name: string, args: Option<Args>, registered: set<string>, env: map<string, string>,
                                acquire: Acquire, elapsed: int)
    ensures var call := Dispatch(name, args, registered, env, acquire, elapsed);
      && (name == "query" && ParseQueryParams(args).Success? ==>
            var p := ParseQueryParams(args).value;
            var run := RunQuery(QueryInput(p.sql, EnvName(p.environment), Some(p.timeout)), registered, acquire, elapsed);
            && (call.outcome.Rejected? <==> run.outcome.Rejected?)
            && (call.outcome.Rejected? ==> call.outcome.error == run.outcome.error)
            && (call.outcome.Pending? <==> run.outcome.Pending?)
            && (call.outcome.Fulfilled? ==> call.outcome.value == QueryResponse(run.outcome.value)))
      && (name == "info" && ParseInfoParams(args).Success? ==>
            var run := RunInfo(ParseInfoParams(args).value, registered, acquire);
            && (call.outcome.Rejected? <==> run.outcome.Rejected?)
            && (call.outcome.Rejected? ==> call.outcome.error == run.outcome.error)
            && (call.outcome.Pending? <==> run.outcome.Pending?)
            && (call.outcome.Fulfilled? ==> call.outcome.value == InfoResponse(run.outcome.value)))
  {
    if name == QueryToolName && ParseQueryParams(args).Success? {
      var p := ParseQueryParams(args).value;
      LiftQueryPreserves(RunQuery(QueryInput(p.sql, EnvName(p.environment), Some(p.timeout)), registered, acquire, elapsed).outcome);
    }
    if name == InfoToolName && ParseInfoParams(args).Success? {
      LiftInfoPreserves(RunInfo(ParseInfoParams(args).value, registered, acquire).outcome);
    }
  }

  lemma LiftQueryPreserves(s: Settlement<QueryResult>)
    ensures (LiftQuery(s).Rejected? <==> s.Rejected?) && (s.Rejected? ==> LiftQuery(s).error == s.error)
    ensures (LiftQuery(s).Pending? <==> s.Pending?)
    ensures LiftQuery(s).Fulfilled? ==> LiftQuery(s).value == QueryResponse(s.value)
  {
  }

  lemma LiftInfoPreserves(s: Settlement<DatabaseInfo>)
    ensures (LiftInfo(s).Rejected? <==> s.Rejected?) && (s.Rejected? ==> LiftInfo(s).error == s.error)
    ensures (LiftInfo(s).Pending? <==> s.Pending?)
    ensures LiftInfo(s).Fulfilled? ==> LiftInfo(s).value == InfoResponse(s.value)
  {
  }

  /** The environments tool answers whatever the pools are and whatever the driver does. */
  lemma EnvironmentsIndependentOfPools(args: Option<Args>, r1: set<string>, r2: set<string>, env: map<string, string>,
                                       a1: Acquire, a2: Acquire, e1: int, e2: int)
    requires args.Some?
    ensures Dispatch("environments", args, r1, env, a1, e1) == Dispatch("environments", args, r2, env, a2, e2)
    ensures Dispatch("environments", args, r1, env, a1, e1).outcome == Fulfilled(EnvironmentsResponse(ListEnvironments(env)))
  {
  }

  /** `CallTool` on the query tool. */
  method CallQuery(registry: PoolRegistry, args: Option<Args>, acquire: Acquire, elapsed: int)
    returns (outcome: Settlement<ToolResponse>)
    modifies registry.pools.Values
    ensures var call := DispatchQuery(args, registry.pools.Keys, acquire, elapsed);
      && outcome == call.outcome
      && forall p :: p in registry.pools.Values ==>
           && p.borrowed == old(p.borrowed) + Moved(registry.pools, call.target, p, call.borrowed)
           && p.released == old(p.released) + Moved(registry.pools, call.target, p, call.released)
           && p.endCalls == old(p.endCalls)
  {
    var parsed := ParseQueryParams(args);
    if parsed.Failure? {
      outcome := Rejected(ValidationError(parsed.error));
      return;
    }
    var p := parsed.value;
    var r, conn := RunQueryTool(registry, QueryInput(p.sql, EnvName(p.environment), Some(p.timeout)), acquire, elapsed);
    outcome := LiftQuery(r);
  }

  /** `CallTool` on the info tool. */
  method CallInfo(registry: PoolRegistry, args: Option<Args>, acquire: Acquire, elapsed: int)
    returns (outcome: Settlement<ToolResponse>)
    modifies registry.pools.Values
    ensures var call := DispatchInfo(args, registry.pools.Keys, acquire);
      && outcome == call.outcome
      && forall p :: p in registry.pools.Values ==>
           && p.borrowed == old(p.borrowed) + Moved(registry.pools, call.target, p, call.borrowed)
           && p.released == old(p.released) + Moved(registry.pools, call.target, p, call.released)
           && p.endCalls == old(p.endCalls)
  {
    var parsed := ParseInfoParams(args);
    if parsed.Failure? {
      outcome := Rejected(ValidationError(parsed.error));
      return;
    }
    var r, conn := RunInfoTool(registry, parsed.value, acquire);
    outcome := LiftInfo(r);
  }

  /**
   * The `CallTool` handler on the registry, with `env` the process variables the
   * environments tool reads: the switch on the tool name.
   */
  method CallTool(registry: PoolRegistry, env: map<string, string>, name: string, args: Option<Args>,
                  acquire: Acquire, elapsed: int) returns (outcome: Settlement<ToolResponse>)
    modifies registry.pools.Values
    ensures var call := Dispatch(name, args, registry.pools.Keys, env, acquire, elapsed);
      && outcome == call.outcome
      && forall p :: p in registry.pools.Values ==>
           && p.borrowed == old(p.borrowed) + Moved(registry.pools, call.target, p, call.borrowed)
           && p.released == old(p.released) + Moved(registry.pools, call.target, p, call.released)
           && p.endCalls == old(p.endCalls)
  {
    if name == QueryToolName {
      outcome := CallQuery(registry, args, acquire, elapsed);
    } else if name == InfoToolName {
      outcome := CallInfo(registry, args, acquire, elapsed);
    } else if name == EnvironmentsToolName {
      var parsed := ParseEnvironmentsParams(args);
      if parsed.Failure? {
        outcome := Rejected(ValidationError(parsed.error));
        return;
      }
      outcome := Fulfilled(EnvironmentsResponse(ListEnvironments(env)));
    } else {
      outcome := Rejected(Error(UnknownToolMessage(name)));
    }
  }

  /** The first `n` keys of `order` whose pool's `end` rejects, in order. */
  function EndFailures(order: seq<string>, endFaults: map<string, Fault>, n: nat): seq<string>
    requires n <= |order|
  {
    if n == 0 then []
    else EndFailures(order, endFaults, n - 1) + (if order[n - 1] in endFaults then [order[n - 1]] else [])
  }

  /** The failures among the first `n` keys are those keys filtered by whether their `end` rejects. */
  lemma {:induction false} EndFailuresFilter(order: seq<string>, endFaults: map<string, Fault>, n: nat)
    requires n <= |order|
    ensures EndFailures(order, endFaults, n) == Filter(order[..n], k => k in endFaults)
  {
    if n > 0 {
      EndFailuresFilter(order, endFaults, n - 1);
      assert order[..n] == order[..n - 1] + [order[n - 1]];
      FilterSnoc(order[..n - 1], order[n - 1], k => k in endFaults);
    }
  }

  /** The failures reported are exactly the pools whose `end` rejected, in insertion order, each once. */
  lemma EndFailuresExactly(order: seq<string>, endFaults: map<string, Fault>)
    requires NoDuplicates(order)
    ensures forall k :: k in EndFailures(order, endFaults, |order|) <==> k in order && k in endFaults
    ensures NoDuplicates(EndFailures(order, endFaults, |order|))
  {
    EndFailuresFilter(order, endFaults, |order|);
    assert order[..|order|] == order;
    FilterNoDuplicates(order, k => k in endFaults);
  }

  /** A pool's counters: `end` calls, borrows and releases. */
  ghost function Counters(p: Pool): (nat, nat, nat)
    reads p
  {
    (p.endCalls, p.borrowed, p.released)
  }

  /**
   * What the cleanup loop has done after its first `i` turns, against the
   * counters `before` it started: the first `i` pools in insertion order were
   * ended once more, and nothing else changed.
   */
  ghost predicate EndedUpTo(registry: PoolRegistry, before: map<string, (nat, nat, nat)>, i: nat)
    requires i <= |registry.order|
    reads registry, registry.pools.Values
  {
    forall j :: 0 <= j < |registry.order| ==>
      var k := registry.order[j];
      k in before && k in registry.pools
      && Counters(registry.pools[k]) == (if j < i then before[k].0 + 1 else before[k].0, before[k].1, before[k].2)
  }

  /** After the last turn every registered pool has been ended once more, and nothing else changed. */
  lemma EndedAll(registry: PoolRegistry, before: map<string, (nat, nat, nat)>)
    requires registry.Valid() && EndedUpTo(registry, before, |registry.order|)
    ensures forall k :: k in registry.pools ==>
      k in before && Counters(registry.pools[k]) == (before[k].0 + 1, before[k].1, before[k].2)
  {
    forall k | k in registry.pools
      ensures k in before && Counters(registry.pools[k]) == (before[k].0 + 1, before[k].1, before[k].2)
    {
      var j :| 0 <= j < |registry.order| && registry.order[j] == k;
    }
  }

  /**
   * One turn of the cleanup loop: `await pool.end()` on the `i`-th pool, with its
   * rejection caught and noted in `failed`.
   */
  method EndOne(registry: PoolRegistry, ghost before: map<string, (nat, nat, nat)>, i: nat,
                endFaults: map<string, Fault>, failed: seq<string>) returns (failed': seq<string>)
    requires i < |registry.order| && registry.Valid() && EndedUpTo(registry, before, i)
    requires failed == EndFailures(registry.order, endFaults, i)
    modifies registry.pools.Values
    ensures failed' == EndFailures(registry.order, endFaults, i + 1)
    ensures EndedUpTo(registry, before, i + 1)
  {
    var key := registry.order[i];
    var pool := registry.pools[key];
    var fault := if key in endFaults then Some(endFaults[key]) else None;
    var outcome := pool.End(fault);
    failed' := if outcome.Some? then failed + [key] else failed;
    forall j | 0 <= j < |registry.order| && j != i
      ensures registry.pools[registry.order[j]] != pool
    {
      assert registry.order[j] != key;
    }
  }

  /**
   * `cleanup`: end every pool, in insertion order, each once; a pool whose `end`
   * rejects (those named in `endFaults`) is logged and the loop goes on. The
   * source returns nothing; the keys of the pools whose `end` failed, in the
   * order they were met, are returned here in place of that log.
   */
  method Cleanup(registry: PoolRegistry, endFaults: map<string, Fault>) returns (failed: seq<string>)
    requires registry.Valid()
    modifies registry.pools.Values
    ensures failed == EndFailures(registry.order, endFaults, |registry.order|)
    ensures forall k :: k in registry.pools ==>
      registry.pools[k].endCalls == old(registry.pools[k].endCalls) + 1
      && registry.pools[k].borrowed == old(registry.pools[k].borrowed)
      && registry.pools[k].released == old(registry.pools[k].released)
  {
    failed := [];
    ghost var before := map k | k in registry.pools :: Counters(registry.pools[k]);
    for i := 0 to |registry.order|
      invariant failed == EndFailures(registry.order, endFaults, i)
      invariant EndedUpTo(registry, before, i)
    {
      failed := EndOne(registry, before, i, endFaults, failed);
    }
    EndedAll(registry, before);
  }
}
