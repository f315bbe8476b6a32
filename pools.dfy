/**
 * The pool registry built at start-up: one pool per environment whose host,
 * user, password and database are all set, created in enum order, with a
 * failing creation skipped without stopping the others.
 */
module Pools {
  import opened Wrappers
  import opened Collections
  import opened Types
  import opened Driver

  /** The process variable that switches TLS on, with the empty options object, when it is exactly "true". */
  const SslVariable: string := "MCP_MYSQL_SSL"

  /** The pool options built for one environment from the process variables. */
  function ConfigFor(env: map<string, string>, e: Environment): PoolOptions {
    PoolOptions(
      host := LookupVar(env, VarName(e, Host)),
      user := LookupVar(env, VarName(e, User)),
      password := LookupVar(env, VarName(e, Pass)),
      database := LookupVar(env, VarName(e, DbName)),
      ssl := if LookupVar(env, SslVariable) == Some("true") then Some(map[]) else None,
      connectionLimit := 5,
      enableKeepAlive := true,
      keepAliveInitialDelay := 10000)
  }

  /** Every configuration reads its own four variables, has the fixed limits, and carries TLS options exactly when asked to. */
  lemma ConfigForShape(env: map<string, string>, e: Environment)
    ensures var o := ConfigFor(env, e);
      && o.host == LookupVar(env, Prefix(e) + "_DB_HOST")
      && o.user == LookupVar(env, Prefix(e) + "_DB_USER")
      && o.password == LookupVar(env, Prefix(e) + "_DB_PASS")
      && o.database == LookupVar(env, Prefix(e) + "_DB_NAME")
      && o.connectionLimit == 5 && o.enableKeepAlive && o.keepAliveInitialDelay == 10000
      && (o.ssl == Some(map[]) <==> SslVariable in env && env[SslVariable] == "true")
      && (o.ssl.None? <==> !(SslVariable in env && env[SslVariable] == "true"))
  {
    forall s: Setting ensures VarName(e, s) == Prefix(e) + ("_DB_" + Suffix(s)) {
      assert Prefix(e) + "_DB_" + Suffix(s) == Prefix(e) + ("_DB_" + Suffix(s));
    }
    assert "_DB_" + Suffix(Host) == "_DB_HOST";
    assert "_DB_" + Suffix(User) == "_DB_USER";
    assert "_DB_" + Suffix(Pass) == "_DB_PASS";
    assert "_DB_" + Suffix(DbName) == "_DB_NAME";
  }

  /** `config.host && config.user && config.password && config.database`. */
  predicate HasPoolConfig(o: PoolOptions) {
    Present(o.host) && Present(o.user) && Present(o.password) && Present(o.database)
  }

  /** The environments that get a pool, in the order they are registered. */
  function PoolEnvironments(env: map<string, string>, createFails: set<Environment>): seq<Environment> {
    Filter(AllEnvironments, e => HasPoolConfig(ConfigFor(env, e)) && e !in createFails)
  }

  /** The same, over a prefix of the enum: what the registration loop has done after `i` steps. */
  function PoolEnvironmentsUpTo(env: map<string, string>, createFails: set<Environment>, i: nat): seq<Environment>
    requires i <= |AllEnvironments|
  {
    Filter(AllEnvironments[..i], e => HasPoolConfig(ConfigFor(env, e)) && e !in createFails)
  }

  /**
   * An environment gets a pool exactly when its four variables are set and not
   * empty and its creation does not throw; the pools are registered in enum
   * order, each once, so there are at most four.
   */
  lemma {:induction false} PoolEnvironmentsSpec(env: map<string, string>, createFails: set<Environment>)
    ensures forall e :: e in PoolEnvironments(env, createFails) <==>
      && Present(LookupVar(env, VarName(e, Host)))
      && Present(LookupVar(env, VarName(e, User)))
      && Present(LookupVar(env, VarName(e, Pass)))
      && Present(LookupVar(env, VarName(e, DbName)))
      && e !in createFails
    ensures StrictlyAscending(PoolEnvironments(env, createFails), EnvIndex)
    ensures NoDuplicates(PoolEnvironments(env, createFails))
    ensures |PoolEnvironments(env, createFails)| <= 4
  {
    AllEnvironmentsInOrder();
    forall e ensures e in AllEnvironments {
      assert AllEnvironments[EnvIndex(e)] == e;
    }
    assert StrictlyAscending(AllEnvironments, EnvIndex);
    FilterAscending(AllEnvironments, e => HasPoolConfig(ConfigFor(env, e)) && e !in createFails, EnvIndex);
  }

  /** A creation failure for one environment changes nothing for any other. */
  lemma CreateFailureIsolated(env: map<string, string>, createFails: set<Environment>, failed: Environment, other: Environment)
    requires other != failed
    ensures other in PoolEnvironments(env, createFails + {failed}) <==> other in PoolEnvironments(env, createFails)
  {
    PoolEnvironmentsSpec(env, createFails + {failed});
    PoolEnvironmentsSpec(env, createFails);
  }

  /** One more step of the loop adds the environment it visits, if that one gets a pool. */
  lemma UpToStep(env: map<string, string>, createFails: set<Environment>, i: nat)
    requires i < |AllEnvironments|
    ensures var e := AllEnvironments[i];
      PoolEnvironmentsUpTo(env, createFails, i + 1) ==
        PoolEnvironmentsUpTo(env, createFails, i) + (if HasPoolConfig(ConfigFor(env, e)) && e !in createFails then [e] else [])
  {
    assert AllEnvironments[..i + 1] == AllEnvironments[..i] + [AllEnvironments[i]];
    FilterSnoc(AllEnvironments[..i], AllEnvironments[i], e => HasPoolConfig(ConfigFor(env, e)) && e !in createFails);
  }

  /** The message both database tools throw, unwrapped, for an environment that has no pool. */
  function NoPoolMessage(environment: string): string {
    "No connection pool available for environment: " + environment
  }

  /**
   * How far one tool call moves the borrow or release counter of `p`: by one
   * when the call did so (`happened`) on the pool registered under `key`.
   */
  function Moved(pools: map<string, Pool>, key: Option<string>, p: Pool, happened: bool): nat {
    if happened && key.Some? && key.value in pools && pools[key.value] == p then 1 else 0
  }

  /** The process-wide map from environment name to pool, with its keys in insertion order. */
  class PoolRegistry {
    var pools: map<string, Pool>
    /** The keys of `pools` in insertion order, the order `pools.entries()` visits them. */
    var order: seq<string>

    ghost predicate Valid()
      reads this
    {
      && NoDuplicates(order)
      && (forall k :: k in pools <==> k in order)
      && (forall k1, k2 :: k1 in pools && k2 in pools && k1 != k2 ==> pools[k1] != pools[k2])
    }

    /** `pools.get(key)`. */
    function Get(key: string): (r: Option<Pool>)
      reads this
      ensures r.Some? <==> key in pools
      ensures r.Some? ==> r.value == pools[key]
    {
      if key in pools then Some(pools[key]) else None
    }

    /** `pools.set(key, pool)`: a new key goes last, an existing one keeps its place. */
    method Set(key: string, pool: Pool)
      modifies this
      ensures pools == old(pools)[key := pool]
      ensures order == if key in old(pools) then old(order) else old(order) + [key]
    {
      if key !in pools {
        order := order + [key];
      }
      pools := pools[key := pool];
    }

    /** What the start-up loop has established after visiting the first `i` environments of the enum. */
    ghost predicate RegisteredUpTo(env: map<string, string>, createFails: set<Environment>, i: nat)
      requires i <= |AllEnvironments|
      reads this, pools.Values
    {
      && order == Names(PoolEnvironmentsUpTo(env, createFails, i))
      && (forall k :: k in pools <==> k in order)
      && (forall k1, k2 :: k1 in pools && k2 in pools && k1 != k2 ==> pools[k1] != pools[k2])
      && (forall e :: EnvName(e) in pools ==> EnvIndex(e) < i && pools[EnvName(e)].options == ConfigFor(env, e))
      && (forall k :: k in pools ==> pools[k].borrowed == 0 && pools[k].released == 0 && pools[k].endCalls == 0)
    }

    /**
     * One turn of the start-up loop, for the `i`-th environment: build its options and,
     * if they are complete, create a pool and register it; a creation that throws is
     * caught and registers nothing.
     */
    method Register(env: map<string, string>, createFails: set<Environment>, i: nat)
      requires i < |AllEnvironments| && RegisteredUpTo(env, createFails, i)
      modifies this
      ensures RegisteredUpTo(env, createFails, i + 1)
    {
      var e := AllEnvironments[i];
      var config := ConfigFor(env, e);
      if HasPoolConfig(config) {
        var created := CreatePool(config, e in createFails);
        if created.Some? {
          Add(env, createFails, i, created.value);
          return;
        }
      }
      Skip(env, createFails, i);
    }

    /** A turn that registers nothing: the environment is incomplete or its creation threw. */
    lemma Skip(env: map<string, string>, createFails: set<Environment>, i: nat)
      requires i < |AllEnvironments| && RegisteredUpTo(env, createFails, i)
      requires !(HasPoolConfig(ConfigFor(env, AllEnvironments[i])) && AllEnvironments[i] !in createFails)
      ensures RegisteredUpTo(env, createFails, i + 1)
    {
      UpToStep(env, createFails, i);
    }

    /** A turn that registers the new pool `pool` under the `i`-th environment's name. */
    method Add(env: map<string, string>, createFails: set<Environment>, i: nat, pool: Pool)
      requires i < |AllEnvironments| && RegisteredUpTo(env, createFails, i)
      requires HasPoolConfig(ConfigFor(env, AllEnvironments[i])) && AllEnvironments[i] !in createFails
      requires pool !in pools.Values && pool.options == ConfigFor(env, AllEnvironments[i])
      requires pool.borrowed == 0 && pool.released == 0 && pool.endCalls == 0
      modifies this
      ensures RegisteredUpTo(env, createFails, i + 1)
    {
      var e := AllEnvironments[i];
      UpToStep(env, createFails, i);
      AllEnvironmentsInOrder();
      assert EnvIndex(e) == i;
      ghost var before, beforeOrder := pools, order;
      assert EnvName(e) !in pools;
      Set(EnvName(e), pool);
      NamesSnoc(PoolEnvironmentsUpTo(env, createFails, i), e);
      FreshEntries(before, pools, env, e, pool, i);
      AddedKey(before, beforeOrder, EnvName(e), pool, pools);
      forall k | k in pools ensures pools[k].borrowed == 0 && pools[k].released == 0 && pools[k].endCalls == 0 {
        if k != EnvName(e) {
          assert pools[k] == before[k];
        }
      }
    }

    /** Adding a new key with a new pool keeps the keys and the order in step and the pools distinct. */
    static lemma AddedKey(pools: map<string, Pool>, order: seq<string>, key: string, pool: Pool, after: map<string, Pool>)
      requires forall k :: k in pools <==> k in order
      requires forall k1, k2 :: k1 in pools && k2 in pools && k1 != k2 ==> pools[k1] != pools[k2]
      requires key !in pools && pool !in pools.Values && after == pools[key := pool]
      ensures forall k :: k in after <==> k in order + [key]
      ensures forall k1, k2 :: k1 in after && k2 in after && k1 != k2 ==> after[k1] != after[k2]
    {
      forall k1, k2 | k1 in after && k2 in after && k1 != k2 ensures after[k1] != after[k2] {
        if k1 == key {
          assert after[k2] == pools[k2] && pools[k2] in pools.Values;
        } else if k2 == key {
          assert after[k1] == pools[k1] && pools[k1] in pools.Values;
        }
      }
    }

    /** Every pool registered after the `i`-th turn belongs to a visited environment and has its options. */
    static lemma FreshEntries(before: map<string, Pool>, after: map<string, Pool>, env: map<string, string>,
                              e: Environment, pool: Pool, i: nat)
      requires after == before[EnvName(e) := pool] && EnvIndex(e) == i && pool.options == ConfigFor(env, e)
      requires forall d :: EnvName(d) in before ==> EnvIndex(d) < i && before[EnvName(d)].options == ConfigFor(env, d)
      ensures forall d :: EnvName(d) in after ==> EnvIndex(d) < i + 1 && after[EnvName(d)].options == ConfigFor(env, d)
    {
      forall d | EnvName(d) in after
        ensures EnvIndex(d) < i + 1 && after[EnvName(d)].options == ConfigFor(env, d)
      {
        if d != e {
          ParseEnvName(d);
          ParseEnvName(e);
          assert EnvName(d) in before && after[EnvName(d)] == before[EnvName(d)];
        }
      }
    }

    /** The module's start-up loop over the enum, with `createPool` throwing for the environments in `createFails`. */
    constructor Init(env: map<string, string>, createFails: set<Environment>)
      ensures Valid()
      ensures order == Names(PoolEnvironments(env, createFails))
      ensures forall e :: EnvName(e) in pools ==>
        && pools[EnvName(e)].options == ConfigFor(env, e)
        && pools[EnvName(e)].borrowed == 0 && pools[EnvName(e)].released == 0
        && pools[EnvName(e)].endCalls == 0
    {
      pools := map[];
      order := [];
      new;
      for i := 0 to |AllEnvironments|
        invariant RegisteredUpTo(env, createFails, i)
      {
        Register(env, createFails, i);
      }
      assert AllEnvironments[..|AllEnvironments|] == AllEnvironments;
      assert PoolEnvironmentsUpTo(env, createFails, |AllEnvironments|) == PoolEnvironments(env, createFails);
      PoolEnvironmentsSpec(env, createFails);
      NamesNoDuplicates(PoolEnvironments(env, createFails));
    }
  }
}
