# MySQL gateway core, modelled in Dafny

The system is a Model Context Protocol server. It offers three tools over a
registry of MySQL connection pools, one pool per deployment environment
(`local`, `development`, `staging`, `production`):

- `query` runs a read-only SQL statement;
- `info` reports version, uptime, variables, process list and database names;
- `environments` lists the environments that look configured.

This project models that core:

- the read-only gate on SQL text;
- the query and info tools, with their order of checks, the connection they
  borrow and release, and their error messages;
- the start-up loop that fills the pool registry;
- the environments listing;
- the tool list, the tool-name switch with its parameter schemas, and the
  shutdown loop that ends every pool.

The MySQL driver is an abstract interface (module `Driver`):

- A `Pool` lends `Connection`s and can be ended.
- A connection runs statements and is released.
- Ghost counters on pools and connections record every borrow, release and
  `end` call.

What the network and the database do is a parameter of each call:
- `Acquire` says whether `getConnection` grants a connection, fails or waits forever.
- The granted connection's `server` function gives the reply to the k-th
  statement: rows and fields, an error, or no settlement before the caller
  stops waiting.

A tool's result is the state its promise ends in: fulfilled, rejected with an
error, or pending forever.

Every imperative operation is a method proved against a specification
function:

| method | specification function |
|---|---|
| `RunQueryTool` | `RunQuery` |
| `RunInfoTool` | `RunInfo` |
| `CallTool` | `Dispatch` |
| `Cleanup` | `EndFailures` |
| `PoolRegistry.Init` | `PoolEnvironments` |

Lemmas then prove what the source promises about those functions.

Modules:
- `Wrappers`: `Option` and `Result`.
- `Collections`: `filter` and `map`.
- `JsText`: the JavaScript string operations used: `trim`, `toUpperCase`,
  `startsWith`, `includes` and number-to-string.
- `Types`: `src/types/index.ts`.
- `Driver`.
- `Pools`: `src/db/pools.ts`.
- `QueryTool`: `src/tools/query.ts`.
- `InfoTool`: `src/tools/info.ts`.
- `EnvironmentsTool`: `src/tools/environments.ts`.
- `Server`: the handlers of `src/index.ts`.

The environments listing and the pool registry disagree:
- The listing checks host, user and database name, but not the password.
- The registry requires all four settings.

So an environment with no password is listed, but every query or info call on
it is refused for want of a pool. `EnvironmentsTool.ListedWithoutPassword`
states this.

## Model

| member | source | states |
|---|---|---|
| QueryTool.IsReadOnlyQuery | src/tools/query.ts:14-18 | Definition of the gate: trim, upper-case, then a prefix test for SELECT, SHOW, DESCRIBE or DESC. |
| QueryTool.TimeoutMessage | src/tools/query.ts:80 | Definition of the timer's message: "Query timeout after <timeout>ms". |
| QueryTool.Refusal | src/tools/query.ts:28-65 | Definition of the checks made before any pool is touched: the gate, then `Environment.parse`, then the pool lookup. The first failing check gives the error. |
| QueryTool.Execute | src/tools/query.ts:68-118 | Definition of the part after the lookup: borrow, race the statement against the timer, release in `finally`, and wrap failures with the prefix. |
| QueryTool.RunQuery | src/tools/query.ts:20-119 | Definition of `runQueryTool`: the refusal if there is one, otherwise `Execute` with the given or default timeout. |
| QueryTool.DescribeSubsumedByDesc | src/tools/query.ts:14-18 | The gate admits a statement exactly when its trimmed, upper-cased text starts with SELECT, SHOW or DESC. The DESCRIBE test adds nothing. |
| QueryTool.AcceptsAnyCaseAfterWhitespace | src/tools/query.ts:15-17 | Any run of JavaScript whitespace, then a read-only keyword in any mix of cases, then any text, is admitted. |
| QueryTool.AsciiGateIsPattern | src/tools/query.ts:14-18 | On ASCII text the gate accepts exactly the pattern `^\s*(SELECT\|SHOW\|DESCRIBE\|DESC)`, ignoring case. Both directions. Beyond ASCII only the "if" direction holds (`PatternAccepted`); `NonAsciiAdmitted` and `NonAsciiOutsidePattern` show why. |
| QueryTool.PatternAccepted | src/tools/query.ts:14-18 | Text matching that pattern at some position is admitted, ASCII or not. |
| QueryTool.AsciiGateMatch | src/tools/query.ts:14-18 | An admitted ASCII statement has a read-only keyword, in some case, right after its leading whitespace. |
| QueryTool.RejectsWriteStatements | src/tools/query.ts:14-18 | A statement whose trimmed, upper-cased text starts with INSERT, UPDATE, DELETE, DROP or CREATE is refused. |
| QueryTool.NonAsciiAdmitted | src/tools/query.ts:14-18 | "SELEC" followed by U+1E97 is admitted, because its upper-case form starts with "SELECT" and a combining diaeresis. |
| QueryTool.NonAsciiOutsidePattern | src/tools/query.ts:14-18 | That same text has no case variant of a read-only word after its leading whitespace. So the pattern equivalence cannot reach beyond ASCII. |
| QueryTool.PrefixTestOnly | src/tools/query.ts:16-17 | The gate is a prefix test only: "SELECT 1; DROP TABLE users" is admitted. |
| QueryTool.ShapeFields | src/tools/query.ts:94-98 | One field descriptor per driver field, in the same order, with name, type and length copied. |
| QueryTool.WriteRejectedFirst | src/tools/query.ts:28-31 | A refused statement is rejected with "Only SELECT, SHOW, DESCRIBE, and DESC queries are allowed". Nothing is borrowed and nothing is sent. |
| QueryTool.MissingPoolRejected | src/tools/query.ts:53-65 | An admitted statement for an environment without a pool is rejected with "No connection pool available for environment: <env>". The message has no prefix and nothing is borrowed. |
| QueryTool.IssuesOnlyFromEnvironmentCheck | src/tools/query.ts:38 | The tool raises a schema error exactly when the gate admits the statement and the environment name is not one of the four. |
| QueryTool.ReleaseExactlyOnce | src/tools/query.ts:68-113 | A connection is borrowed exactly when every check passes and the pool grants one. Every borrowed connection is released, and the statement is the only thing sent on it. |
| QueryTool.PendingOnlyWhenBlocked | src/tools/query.ts:72 | The call stays unsettled exactly when every check passes and the pool never grants a connection. |
| QueryTool.FailuresWrapped | src/tools/query.ts:77-82 | Every failure after the lookup is "Query execution failed: " + an inner message. That message is the acquire fault, the statement fault, or "Query timeout after <timeout>ms". |
| QueryTool.DefaultTimeoutApplies | src/tools/query.ts:21 | Without a timeout the timer runs for 30000 ms, and its message says so. |
| QueryTool.SuccessShape | src/tools/query.ts:84-101 | Success happens exactly when every check passes and the statement answers in time. Rows are passed through, rowCount equals the number of rows, fields map one to one, and executionTime is the measured time. |
| QueryTool.RunQueryCases | src/tools/query.ts:20-119 | A refused call is rejected with the refusal and touches nothing. An admitted one runs the statement on the pool. |
| QueryTool.ExecuteSettles | src/tools/query.ts:68-118 | After the lookup the call waits forever exactly when the pool does, and succeeds exactly when the statement answers. It fails only with an `Error`. It borrows, releases and sends the statement exactly when granted a connection. |
| QueryTool.ExecuteOn | src/tools/query.ts:68-118 | On one pool the outcome is `Execute`'s. The lent connection carries exactly the statement and one release. The pool's borrow and release counters move together, by one when a connection was lent. |
| QueryTool.RunQueryTool | src/tools/query.ts:20-119 | The outcome is `RunQuery`'s. Only the environment's pool is touched, by one borrow and one release, and only when a connection was lent. End counters are unchanged. |
| QueryTool.ExecuteRegistered | src/tools/query.ts:53-118 | Running on the pool registered under a key moves only that pool's counters. |
| InfoTool.NameValueMap | src/tools/info.ts:32-42 | Definition of the `reduce`: a left fold storing each row's `Value` under its `Variable_name`. |
| InfoTool.UptimeStatus | src/tools/info.ts:54 | Definition of the status string: "Up <Uptime> seconds" when Uptime is truthy, otherwise "Unknown". |
| InfoTool.Inspect | src/tools/info.ts:25-58 | Definition of the five statements on one connection, in order, stopping at the first failure or hang. All five answers are assembled into the report. |
| InfoTool.InspectOn | src/tools/info.ts:22-72 | Definition of the part after the lookup: borrow, inspect, release in `finally` unless a statement hangs, and wrap failures with the prefix. |
| InfoTool.RunInfo | src/tools/info.ts:13-73 | Definition of `runInfoTool`: the unprefixed missing-pool error, otherwise `InspectOn`. |
| InfoTool.NameValueMapKeys | src/tools/info.ts:32-42 | The folded map has a key for exactly the names the rows carry. |
| InfoTool.NameValueMapLastWins | src/tools/info.ts:32-42 | Under each name the folded map holds the value of the last row with that name. |
| InfoTool.UptimeFromRows | src/tools/info.ts:54 | With a last Uptime row whose value is truthy, the status is "Up <value> seconds". With a falsy value it is "Unknown". |
| InfoTool.NoUptimeUnknown | src/tools/info.ts:54 | Without an Uptime row the status is "Unknown". |
| InfoTool.Databases | src/tools/info.ts:49-50 | The Database column of every row, in order, with the same length. |
| InfoTool.ReportExactlyWhenAllAnswer | src/tools/info.ts:25-58 | A report comes exactly when all five statements answer and the version statement returns a row. Its fields are read off the five answers. |
| InfoTool.StopsAtFirstFailure | src/tools/info.ts:27-50 | Between one and five statements are sent, and the sequence stops at the first one that fails or never settles. An empty version answer stops it with the TypeError message. |
| InfoTool.CollectInfo | src/tools/info.ts:25-58 | On a fresh connection the five statements run in order, stopping at the first failure. The result is `Inspect` of the server, and exactly the statements issued were sent, in order. |
| InfoTool.ReleasedUnlessStuck | src/tools/info.ts:22-68 | A connection is borrowed exactly when the pool exists and grants one. It is released exactly when no statement hangs, and a call that keeps its connection is pending. |
| InfoTool.FailuresWrapped | src/tools/info.ts:17-71 | A missing pool is rejected with the unprefixed message. An acquire fault or statement failure becomes "Failed to get database info: " + its message. |
| InfoTool.InspectPool | src/tools/info.ts:22-72 | On one pool the outcome is `InspectOn`'s. The pool's counters move by one borrow, and one release unless a statement hangs. |
| InfoTool.RunInfoTool | src/tools/info.ts:13-73 | The outcome is `RunInfo`'s. Only the environment's pool is touched, and end counters are unchanged. |
| Pools.ConfigFor | src/db/pools.ts:37-46 | Definition of the `PoolOptions` built from an environment's prefixed variables and the SSL flag. |
| Pools.HasPoolConfig | src/db/pools.ts:48 | Definition of the registry's completeness test: host, user, password and database all non-empty. |
| Pools.PoolEnvironments | src/db/pools.ts:25-74 | Definition of the environments that get a pool: the enum filtered by completeness and by `createPool` not throwing. |
| Pools.ConfigForShape | src/db/pools.ts:37-46 | The options read `<PREFIX>_DB_HOST/USER/PASS/NAME`. The limits are 5, keep-alive and 10000, and TLS is the empty object exactly when MCP_MYSQL_SSL is "true". |
| Pools.PoolEnvironmentsSpec | src/db/pools.ts:25-74 | An environment gets a pool exactly when its four settings are non-empty and `createPool` succeeds. Pools are registered in enum order, each once, at most four. |
| Pools.CreateFailureIsolated | src/db/pools.ts:57-65 | One environment's `createPool` failure changes nothing for the others. |
| Pools.PoolRegistry.Get | src/db/pools.ts:9 | `pools.get(key)`: a pool exactly when the key is registered. |
| Pools.PoolRegistry.Set | src/db/pools.ts:59 | `pools.set`: the map is updated, and a new key goes last in insertion order. |
| Pools.PoolRegistry.Register | src/db/pools.ts:26-73 | One turn of the loop keeps the registration invariant for the visited prefix of the enum. |
| Pools.PoolRegistry.Init | src/db/pools.ts:25-74 | After the loop the registry is valid and its keys, in insertion order, are the names of the pooled environments. Every pool has its environment's options and has not been used. |
| Driver.Pool.GetConnection | src/tools/query.ts:72 | A connection is lent exactly when granted, and it is new, empty and unreleased. The borrow counter moves by one exactly then. |
| Driver.Connection.Query | src/tools/query.ts:78 | The reply is the server's answer to the next statement, and the statement is appended to those sent. |
| Driver.Connection.Release | src/tools/query.ts:111 | The connection's and its pool's release counters move by one. |
| Driver.Pool.End | src/index.ts:263 | The end counter moves by one, and the rejection given is the result. |
| Driver.CreatePool | src/db/pools.ts:58 | A new, unused pool with the given options, or nothing when the call throws. |
| EnvironmentsTool.HasListingConfig | src/tools/environments.ts:35-39 | Definition of the listing's test: host, user and database name non-empty. The password is not checked. |
| EnvironmentsTool.DbVariables | src/tools/environments.ts:25-27 | Definition of envVars as a map: the process variables whose name contains "_DB_". |
| EnvironmentsTool.SpreadVariables | src/tools/environments.ts:27 | Definition of the spreading `reduce` as a left fold over the keys. |
| EnvironmentsTool.ListEnvironments | src/tools/environments.ts:20-72 | Definition of `runEnvironmentsTool`: the names of the listed environments, their count, and envVars. |
| EnvironmentsTool.ListedExactly | src/tools/environments.ts:31-50 | An environment is listed exactly when host, user and database name are non-empty. The list is in enum order without repetition, and count is its length. |
| EnvironmentsTool.ListedOrdered | src/tools/environments.ts:31-50 | The listed environments are strictly ascending in enum order, at most four. |
| EnvironmentsTool.DbVariablesExactly | src/tools/environments.ts:25-27 | envVars holds exactly the process variables whose name contains "_DB_", with their values. |
| EnvironmentsTool.SpreadVariablesContents | src/tools/environments.ts:27 | The spreading `reduce` ends with the accumulator's keys plus the spread keys, each mapped to its process value. |
| EnvironmentsTool.DbVariablesIsReduce | src/tools/environments.ts:25-27 | The `filter` and `reduce` over any listing of the variable names gives exactly the `_DB_` map that envVars holds, whatever the key order. |
| EnvironmentsTool.SettingVariablesReported | src/tools/environments.ts:25-27 | Every per-environment setting variable that is set is reported. |
| EnvironmentsTool.NothingConfigured | src/tools/environments.ts:55-67 | With no "_DB_" variable the result is the empty list, count 0 and no variables. |
| EnvironmentsTool.PooledIsListed | src/tools/environments.ts:35-39 | Every environment that has a pool is listed. |
| EnvironmentsTool.ListedWithoutPassword | src/tools/environments.ts:35-39 | An environment with host, user and name but no password is listed, yet has no pool. |
| Types.ParseEnvironmentsParams | src/tools/environments.ts:6 | The empty object schema: success exactly when an arguments object is given, and a failure lists at least one issue. |
| Types.ParseEnvironment | src/types/index.ts:5 | The enum accepts exactly the four names, case-sensitively. |
| Types.AllEnvironmentsInOrder | src/types/index.ts:5 | The enum's values are listed once each, in declaration order. |
| Types.ParseQueryParams | src/types/index.ts:20-24 | Success exactly when sql is a non-empty string, environment is one of the four and timeout, if given, is a number. The timeout defaults to 30000, and a failure lists at least one issue. |
| Types.ParseInfoParams | src/types/index.ts:28-30 | Success exactly when environment is one of the four names. |
| Types.EmptySqlRejected | src/types/index.ts:21 | An empty sql is refused with a too-small issue on sql. |
| Types.MissingEnvironmentRejected | src/types/index.ts:22 | A request without environment is refused by both schemas that need one. |
| Server.ListTools | src/index.ts:158-208 | Definition of the `ListTools` answer: the query, info and environments descriptors, in that order. |
| Server.DispatchQuery | src/index.ts:222-228 | Definition of the query case: parse with `QueryParams`, then `RunQuery`. |
| Server.DispatchInfo | src/index.ts:229-235 | Definition of the info case: parse with `InfoParams`, then `RunInfo`. |
| Server.DispatchEnvironments | src/index.ts:236-242 | Definition of the environments case: parse with the empty schema, then `ListEnvironments`. |
| Server.Dispatch | src/index.ts:216-253 | Definition of the switch on the tool name, with "Unknown tool: <name>" as the default. |
| Server.EndFailures | src/index.ts:260-269 | Definition of the pools the cleanup loop logs as failing: the registered keys whose `end` rejects, in insertion order. |
| Server.ListToolsAgreesWithDispatch | src/index.ts:158-208 | Exactly three tools, named query, info and environments in that order. Every required property is declared, and every environment enum lists the schema's four names in order. |
| Server.UnknownToolRejected | src/index.ts:243-247 | Any other name is rejected with "Unknown tool: <name>", and no pool is touched. |
| Server.SchemaErrorsFirst | src/index.ts:224-238 | Arguments refused by the tool's schema reject the call with the schema's issues, before any pool is touched. |
| Server.DispatchedQueryValidated | src/index.ts:222-228 | Through the switch the query tool gets a valid environment and a timeout (the given one, or 30000). It raises no schema error of its own, and its gate still runs first. |
| Server.ToolOutcomesPassThrough | src/index.ts:249-252 | The switch rethrows a tool's error unchanged and passes its result and pending state through. |
| Server.EnvironmentsIndependentOfPools | src/index.ts:236-242 | The environments call answers the same whatever the pools and the driver do. |
| Server.CallQuery | src/index.ts:222-228 | The query case: the outcome is `DispatchQuery`'s, and only the environment's pool moves. |
| Server.CallInfo | src/index.ts:229-235 | The info case: the outcome is `DispatchInfo`'s, and only the environment's pool moves. |
| Server.CallTool | src/index.ts:216-253 | The outcome is `Dispatch`'s for the name. Only the targeted pool's borrow and release counters move, and no pool is ended. |
| Server.EndFailuresExactly | src/index.ts:260-269 | The keys reported as failing are exactly the pools whose `end` rejects, each once. |
| Server.EndOne | src/index.ts:261-268 | One turn ends the next pool in insertion order and notes its failure, if any. |
| Server.Cleanup | src/index.ts:257-272 | Every registered pool is ended exactly once, whatever the others do, and borrow and release counters are unchanged. `cleanup` itself returns nothing and only logs each failing pool. The method returns that log as a value: the keys of `EndFailures`, in insertion order. |
| JsText.ToUpperAppend | src/tools/query.ts:15 | Upper-casing distributes over concatenation. |
| JsText.NatToStringRoundTrip | src/tools/query.ts:80 | The decimal text of a number reads back as that number. |
| Collections.Filter | src/tools/environments.ts:31 | `filter` keeps exactly the elements that satisfy the predicate, never more than there were. |
| Collections.FilterAscending | src/tools/environments.ts:31-50 | Filtering keeps a strictly ascending sequence strictly ascending and free of duplicates. |

## Left out

- JSON text: each tool's `content` text is `JSON.stringify` of its result. The model returns the structured value, not its serialisation.
- QueryTool.ExecuteOn: the timer race is an abstract outcome of the driver's reply. `Unsettled` means the statement did not settle before the timer fired. Clamping of odd timeout values by `setTimeout` is not modelled. `executionTime` is the `elapsed` parameter, not a clock reading.
- Numbers are integers: non-integral timeouts and row values, and the text JavaScript gives them, are not modelled.
- JsText.IntToString: the text equals JavaScript's `String(n)` only for integers of magnitude at most 2^53. Above 2^53 JavaScript prints the shortest digits that round-trip, padded with zeros, and from 10^21 on it uses exponent form ("1e+21"); the model prints every digit. The model's unbounded integer also stands for values no double can hold: `Types.ArgNumber` accepts 9007199254740993, which JavaScript reads as 9007199254740992.
- QueryTool.FailuresWrapped: the timeout message "Query timeout after <timeout>ms" matches JavaScript's `${timeout}` only for timeouts of magnitude at most 2^53, for the reason given for `JsText.IntToString`.
- InfoTool.NameValueMap: for a row named `__proto__`, JavaScript adds no `__proto__` key. A string or number value is dropped, and null makes the accumulator prototype-less. The model files it as an ordinary key.
- JsText.UpperChar: `toUpperCase` is modelled for ASCII letters, and for every other character whose upper-case form contains an ASCII letter. All other characters are left unchanged, which cannot change the gate's verdict.
- EnvironmentsTool.ListEnvironments: the `try`/rethrow is not modelled because nothing in the body throws. `envVars` is a map, so the key order of `process.env` is not kept.
- Driver.Connection.Release and Driver.Pool.End: `release` is assumed not to throw.
- Driver.Pool.End: an `end` that never settles, which would stall `cleanup`, is not modelled.
- Concurrency: calls run one at a time. Interleaving of concurrent requests and the five-connection limit are not modelled; a saturated pool is `Blocked`.
- The info tool's hanging statement keeps its connection forever. The model records this as a borrow without a release; it does not model the connection being freed later, when the driver gives up.
- Start-up and shutdown wiring: the MCP server and stdio transport setup, signal and uncaught-exception handlers, dotenv loading, debug logging and `src/help.ts`. These are I/O with no invariants.
- Process variables are the parameter `env`: a map from names to strings.
