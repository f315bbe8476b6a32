/**
 * The shared vocabulary of the server: the closed set of environments, the
 * values the driver returns, the errors a tool can raise, and the parameter
 * schemas the dispatcher validates requests against.
 */
module Types {
  import opened Wrappers
  import opened JsText

  /** The four deployment targets; the enum accepts exactly their four names. */
  datatype Environment = Local | Development | Staging | Production

  /** The enum's values in declaration order, the order every loop over them follows. */
  const AllEnvironments: seq<Environment> := [Local, Development, Staging, Production]

  /** Position of an environment in the enum. */
  function EnvIndex(e: Environment): int {
    match e
    case Local => 0
    case Development => 1
    case Staging => 2
    case Production => 3
  }

  /** The enum's values are listed once each, in declaration order. */
  lemma AllEnvironmentsInOrder()
    ensures forall e :: 0 <= EnvIndex(e) < |AllEnvironments| && AllEnvironments[EnvIndex(e)] == e
    ensures forall i :: 0 <= i < |AllEnvironments| ==> EnvIndex(AllEnvironments[i]) == i
  {
    forall e ensures 0 <= EnvIndex(e) < |AllEnvironments| && AllEnvironments[EnvIndex(e)] == e {
      match e
      case Local =>
      case Development =>
      case Staging =>
      case Production =>
    }
  }

  /** The enum value, as the string the protocol and the pool map use. */
  function EnvName(e: Environment): string {
    match e
    case Local => "local"
    case Development => "development"
    case Staging => "staging"
    case Production => "production"
  }

  /** `Environment.parse` on a string: an exact, case-sensitive match against the four names. */
  function ParseEnvironment(s: string): (r: Option<Environment>)
    ensures r.Some? ==> EnvName(r.value) == s
    ensures r.None? ==> forall e :: EnvName(e) != s
  {
    if s == "local" then Some(Local)
    else if s == "development" then Some(Development)
    else if s == "staging" then Some(Staging)
    else if s == "production" then Some(Production)
    else None
  }

  /** Parsing an environment's name gives that environment back. */
  lemma ParseEnvName(e: Environment)
    ensures ParseEnvironment(EnvName(e)) == Some(e)
  {
  }

  /** Different environments have different names. */
  lemma EnvNameInjective()
    ensures forall a, b :: EnvName(a) == EnvName(b) ==> a == b
  {
  }

  /** The names of a sequence of environments, in the same order. */
  function Names(es: seq<Environment>): (r: seq<string>)
    ensures |r| == |es| && forall i :: 0 <= i < |es| ==> r[i] == EnvName(es[i])
  {
    if es == [] then [] else [EnvName(es[0])] + Names(es[1..])
  }

  lemma NamesSnoc(es: seq<Environment>, e: Environment)
    ensures Names(es + [e]) == Names(es) + [EnvName(e)]
  {
    assert |Names(es + [e])| == |Names(es) + [EnvName(e)]|;
    forall i | 0 <= i < |es| + 1 ensures Names(es + [e])[i] == (Names(es) + [EnvName(e)])[i] {
      if i < |es| {
        assert (es + [e])[i] == es[i];
      }
    }
  }

  /** Names of environments listed without repetition are themselves without repetition. */
  lemma NamesNoDuplicates(es: seq<Environment>)
    requires forall i, j :: 0 <= i < j < |es| ==> es[i] != es[j]
    ensures forall i, j :: 0 <= i < j < |es| ==> Names(es)[i] != Names(es)[j]
  {
    EnvNameInjective();
  }

  /** An environment's name is among the names of a sequence exactly when the environment is in it. */
  lemma NamesMembership(es: seq<Environment>, e: Environment)
    ensures EnvName(e) in Names(es) <==> e in es
  {
    if EnvName(e) in Names(es) {
      var i :| 0 <= i < |es| && Names(es)[i] == EnvName(e);
      ParseEnvName(e);
      ParseEnvName(es[i]);
    }
    if e in es {
      var i :| 0 <= i < |es| && es[i] == e;
      assert Names(es)[i] == EnvName(e);
    }
  }

  /** The prefix of an environment's variables (local -> LOCAL, ...), its name in upper case. */
  function Prefix(e: Environment): string {
    match e
    case Local => "LOCAL"
    case Development => "DEVELOPMENT"
    case Staging => "STAGING"
    case Production => "PRODUCTION"
  }

  /** The four settings read per environment. */
  datatype Setting = Host | User | Pass | DbName

  function Suffix(s: Setting): string {
    match s
    case Host => "HOST"
    case User => "USER"
    case Pass => "PASS"
    case DbName => "NAME"
  }

  /** The process variable holding one setting of one environment, `<PREFIX>_DB_<SUFFIX>`. */
  function VarName(e: Environment, s: Setting): string {
    Prefix(e) + "_DB_" + Suffix(s)
  }

  /** `process.env[key]`: the variable's value, or undefined. */
  function LookupVar(env: map<string, string>, key: string): Option<string> {
    if key in env then Some(env[key]) else None
  }

  /** JavaScript truthiness of an optional string: defined and not empty. */
  predicate Present(v: Option<string>) {
    v.Some? && v.value != ""
  }

  /**
   * A JavaScript value as the driver returns it in a row: a string, an integral
   * number, null, or undefined (a column the row does not have).
   */
  datatype Value = Str(s: string) | Int(i: int) | Null | Undefined

  /** A result row: column name to value. */
  type Row = map<string, Value>

  /** `row.name`. */
  function Column(row: Row, name: string): Value {
    if name in row then row[name] else Undefined
  }

  /** `String(v)`: the text a template literal or a property key makes of `v`. */
  function ToJsString(v: Value): string {
    match v
    case Str(s) => s
    case Int(i) => IntToString(i)
    case Null => "null"
    case Undefined => "undefined"
  }

  /** JavaScript truthiness of a value. */
  predicate Truthy(v: Value) {
    match v
    case Str(s) => s != ""
    case Int(i) => i != 0
    case Null => false
    case Undefined => false
  }

  /** A driver field descriptor: name, type and length, and the rest of its metadata. */
  datatype FieldPacket = FieldPacket(name: string, fieldType: string, length: int, metadata: map<string, Value>)

  /** What a driver call or a statement can throw: an `Error` with its message, or any other value. */
  datatype Fault = ErrorInstance(message: string) | NonError

  /** `error instanceof Error ? error.message : "Unknown error occurred"`. */
  function FaultMessage(f: Fault): string {
    match f
    case ErrorInstance(m) => m
    case NonError => "Unknown error occurred"
  }

  /** The kinds of schema issue the three schemas can report. */
  datatype IssueCode = InvalidType | TooSmall | InvalidEnumValue

  /** One schema issue: the path of the offending property (empty for the whole input) and its kind. */
  datatype Issue = Issue(path: seq<string>, code: IssueCode)

  /** What a tool raises: an `Error` with a message, or a schema validation error listing its issues. */
  datatype ToolError = Error(message: string) | ValidationError(issues: seq<Issue>)

  /** The state an async call's promise ends in: fulfilled, rejected, or still pending for ever. */
  datatype Settlement<T> = Fulfilled(value: T) | Rejected(error: ToolError) | Pending

  /** A request argument as JSON gives it: a string, an integral number, or anything else. */
  datatype Arg = ArgString(s: string) | ArgNumber(n: int) | ArgOther

  type Args = map<string, Arg>

  /** The timeout a query gets when the request names none, in milliseconds. */
  const DefaultTimeout: int := 30000

  /** A validated query request. */
  datatype QueryParams = QueryParams(sql: string, environment: Environment, timeout: int)

  /** A validated info request. */
  datatype InfoParams = InfoParams(environment: Environment)

  /** Issues of `sql: z.string().min(1)`. */
  function SqlIssues(a: Args): seq<Issue> {
    if "sql" !in a || !a["sql"].ArgString? then [Issue(["sql"], InvalidType)]
    else if |a["sql"].s| < 1 then [Issue(["sql"], TooSmall)]
    else []
  }

  /** Issues of `environment: Environment`. */
  function EnvironmentIssues(a: Args): seq<Issue> {
    if "environment" !in a || !a["environment"].ArgString? then [Issue(["environment"], InvalidType)]
    else if ParseEnvironment(a["environment"].s).None? then [Issue(["environment"], InvalidEnumValue)]
    else []
  }

  /** Issues of `timeout: z.number().optional().default(30000)`. */
  function TimeoutIssues(a: Args): seq<Issue> {
    if "timeout" in a && !a["timeout"].ArgNumber? then [Issue(["timeout"], InvalidType)] else []
  }

  /** The `QueryParams` schema: every issue in property order, or the validated request with the default applied. */
  function ParseQueryParams(args: Option<Args>): (r: Result<QueryParams, seq<Issue>>)
    ensures r.Success? <==>
      && args.Some?
      && "sql" in args.value && args.value["sql"].ArgString? && args.value["sql"].s != ""
      && "environment" in args.value && args.value["environment"].ArgString?
      && ParseEnvironment(args.value["environment"].s).Some?
      && ("timeout" in args.value ==> args.value["timeout"].ArgNumber?)
    ensures r.Success? ==>
      && r.value.sql == args.value["sql"].s
      && EnvName(r.value.environment) == args.value["environment"].s
      && r.value.timeout == (if "timeout" in args.value then args.value["timeout"].n else DefaultTimeout)
    ensures r.Failure? ==> r.error != []
  {
    if args.None? then Failure([Issue([], InvalidType)])
    else
      var a := args.value;
      var issues := SqlIssues(a) + EnvironmentIssues(a) + TimeoutIssues(a);
      if issues != [] then Failure(issues)
      else
        Success(QueryParams(
          a["sql"].s,
          ParseEnvironment(a["environment"].s).value,
          if "timeout" in a then a["timeout"].n else DefaultTimeout))
  }

  /** The `InfoParams` schema: exactly a valid `environment`. */
  function ParseInfoParams(args: Option<Args>): (r: Result<InfoParams, seq<Issue>>)
    ensures r.Success? <==>
      args.Some? && "environment" in args.value && args.value["environment"].ArgString?
      && ParseEnvironment(args.value["environment"].s).Some?
    ensures r.Success? ==> EnvName(r.value.environment) == args.value["environment"].s
    ensures r.Failure? ==> r.error != []
  {
    if args.None? then Failure([Issue([], InvalidType)])
    else
      var issues := EnvironmentIssues(args.value);
      if issues != [] then Failure(issues)
      else Success(InfoParams(ParseEnvironment(args.value["environment"].s).value))
  }

  /** The empty object schema of the environments tool: any arguments object passes. */
  function ParseEnvironmentsParams(args: Option<Args>): (r: Result<(), seq<Issue>>)
    ensures r.Success? <==> args.Some?
    ensures r.Failure? ==> r.error != []
  {
    if args.None? then Failure([Issue([], InvalidType)]) else Success(())
  }

  /** An empty `sql` is refused with a too-small issue on `sql`, whatever the other arguments are. */
  lemma EmptySqlRejected(a: Args)
    requires "sql" in a && a["sql"] == ArgString("")
    ensures ParseQueryParams(Some(a)).Failure?
    ensures Issue(["sql"], TooSmall) in ParseQueryParams(Some(a)).error
  {
  }

  /** A request without an environment is refused by both schemas that need one. */
  lemma MissingEnvironmentRejected(a: Args)
    requires "environment" !in a
    ensures ParseQueryParams(Some(a)).Failure? && ParseInfoParams(Some(a)).Failure?
    ensures Issue(["environment"], InvalidType) in ParseQueryParams(Some(a)).error
  {
  }
}
