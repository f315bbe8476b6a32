/**
 * The environments tool: which environments look configured, judged from the
 * process variables alone, and the database-related variables themselves.
 */
module EnvironmentsTool {
  import opened Collections
  import opened JsText
  import opened Types
  import opened Pools

  /** The tool's answer: the configured environments' names, how many there are, and the `_DB_` variables. */
  datatype EnvironmentsResult = EnvironmentsResult(environments: seq<string>, count: int, envVars: map<string, string>)

  /** The check the tool makes: host, user and database name set and not empty. The password is not looked at. */
  predicate HasListingConfig(env: map<string, string>, e: Environment) {
    Present(LookupVar(env, VarName(e, Host)))
    && Present(LookupVar(env, VarName(e, User)))
    && Present(LookupVar(env, VarName(e, DbName)))
  }

  /**
   * The process variables whose name contains `_DB_`, with their values: what the
   * `filter`/`reduce` over `Object.keys(process.env)` builds, whatever order the
   * keys come in (`DbVariablesIsReduce`).
   */
  function DbVariables(env: map<string, string>): map<string, string> {
    map k | k in env && Includes(k, "_DB_") :: env[k]
  }

  /** Whether a variable name is database-related: it contains `_DB_`. */
  predicate IsDbVariable(key: string) {
    Includes(key, "_DB_")
  }

  /** `keys.reduce((acc, key) => ({ ...acc, [key]: env[key] }), acc)`: a left fold spreading each key in. */
  function SpreadVariables(acc: map<string, string>, keys: seq<string>, env: map<string, string>): map<string, string>
    requires forall k :: k in keys ==> k in env
    decreases keys
  {
    if keys == [] then acc else SpreadVariables(acc[keys[0] := env[keys[0]]], keys[1..], env)
  }

  /** The fold holds the accumulator's keys and the spread keys, each with its process value. */
  lemma {:induction false} SpreadVariablesContents(acc: map<string, string>, keys: seq<string>, env: map<string, string>)
    requires forall k :: k in keys ==> k in env
    requires forall k :: k in acc ==> k in env && acc[k] == env[k]
    ensures var r := SpreadVariables(acc, keys, env);
      forall k :: (k in r <==> k in acc || k in keys) && (k in r ==> r[k] == env[k])
    decreases keys
  {
    if keys != [] {
      SpreadVariablesContents(acc[keys[0] := env[keys[0]]], keys[1..], env);
      assert forall k :: k in keys <==> k == keys[0] || k in keys[1..];
    }
  }

  /**
   * The `filter`/`reduce` over any listing of the process variable names builds
   * exactly `DbVariables`.
   */
  lemma DbVariablesIsReduce(keys: seq<string>, env: map<string, string>)
    requires forall k :: k in keys <==> k in env
    ensures SpreadVariables(map[], Filter(keys, IsDbVariable), env) == DbVariables(env)
  {
    var dbKeys := Filter(keys, IsDbVariable);
    SpreadVariablesContents(map[], dbKeys, env);
  }

  /** The environments that pass the check, in enum order. */
  function ListedEnvironments(env: map<string, string>): seq<Environment> {
    Filter(AllEnvironments, e => HasListingConfig(env, e))
  }

  /** `runEnvironmentsTool`, on the process variables `env`. */
  function ListEnvironments(env: map<string, string>): EnvironmentsResult {
    var listed := Names(ListedEnvironments(env));
    EnvironmentsResult(listed, |listed|, DbVariables(env))
  }

  /**
   * An environment is listed exactly when its host, user and database name are
   * set and not empty; the list follows the enum order without repetition and
   * `count` is its length.
   */
  lemma ListedExactly(env: map<string, string>)
    ensures var r := ListEnvironments(env);
      && (forall e :: EnvName(e) in r.environments <==>
            Present(LookupVar(env, VarName(e, Host)))
            && Present(LookupVar(env, VarName(e, User)))
            && Present(LookupVar(env, VarName(e, DbName))))
      && r.count == |r.environments| <= 4
      && (forall i, j :: 0 <= i < j < |r.environments| ==> r.environments[i] != r.environments[j])
      && StrictlyAscending(ListedEnvironments(env), EnvIndex)
  {
    var listed := ListedEnvironments(env);
    ListedOrdered(env);
    NamesNoDuplicates(listed);
    forall e ensures EnvName(e) in Names(listed) <==> HasListingConfig(env, e) {
      NamesMembership(listed, e);
    }
  }

  /** The listed environments follow the enum order, each once. */
  lemma ListedOrdered(env: map<string, string>)
    ensures StrictlyAscending(ListedEnvironments(env), EnvIndex)
    ensures NoDuplicates(ListedEnvironments(env))
    ensures |ListedEnvironments(env)| <= 4
    ensures forall e :: e in ListedEnvironments(env) <==> HasListingConfig(env, e)
  {
    AllEnvironmentsInOrder();
    forall e ensures e in AllEnvironments {
      assert AllEnvironments[EnvIndex(e)] == e;
    }
    assert StrictlyAscending(AllEnvironments, EnvIndex);
    FilterAscending(AllEnvironments, e => HasListingConfig(env, e), EnvIndex);
  }

  /** The variables reported are exactly the process variables whose name contains `_DB_`, with their values. */
  lemma DbVariablesExactly(env: map<string, string>)
    ensures var vars := ListEnvironments(env).envVars;
      forall k :: (k in vars <==> k in env && Includes(k, "_DB_")) && (k in vars ==> vars[k] == env[k])
  {
  }

  /** Every per-environment setting variable that is set is among the variables reported. */
  lemma SettingVariablesReported(env: map<string, string>, e: Environment, s: Setting)
    requires VarName(e, s) in env
    ensures VarName(e, s) in ListEnvironments(env).envVars
  {
    IncludesInfix(Prefix(e), "_DB_", Suffix(s));
  }

  /** With no `_DB_` variable at all, nothing is listed and nothing is reported. */
  lemma NothingConfigured(env: map<string, string>)
    requires forall k :: k in env ==> !Includes(k, "_DB_")
    ensures ListEnvironments(env) == EnvironmentsResult([], 0, map[])
  {
    forall e ensures !HasListingConfig(env, e) {
      IncludesInfix(Prefix(e), "_DB_", Suffix(Host));
    }
    assert ListedEnvironments(env) == [];
    assert DbVariables(env) == map[];
  }

  /** Every environment that has a pool is listed. */
  lemma PooledIsListed(env: map<string, string>, createFails: set<Environment>, e: Environment)
    requires e in PoolEnvironments(env, createFails)
    ensures EnvName(e) in ListEnvironments(env).environments
  {
    PoolEnvironmentsSpec(env, createFails);
    ListedExactly(env);
  }

  /**
   * The listing can claim more than the pools give: an environment whose password
   * is missing or empty is listed, though no pool exists for it, and a query or
   * info call on it is refused for want of a pool.
   */
  lemma ListedWithoutPassword(env: map<string, string>, createFails: set<Environment>, e: Environment)
    requires HasListingConfig(env, e) && !Present(LookupVar(env, VarName(e, Pass)))
    ensures EnvName(e) in ListEnvironments(env).environments
    ensures e !in PoolEnvironments(env, createFails)
  {
    PoolEnvironmentsSpec(env, createFails);
    ListedExactly(env);
  }
}
