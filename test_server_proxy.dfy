/**
 * The test-server proxy's configuration rules and client caches: where the seed host comes from,
 * whether the tests run against a remote cluster (which fixes the port and the replication
 * strategy), and the get-or-create caches of keyspace and cluster contexts.
 */
module TestServerProxy {
  import opened Wrappers
  import opened Strings

  const TestClusterName := "cass_sandbox"
  const TestKeyspaceName := "astyanaxunittests"
  const LocalSeeds := "localhost:9160"
  /** The compiled-in remote seed override; the shipped value is null. */
  const RemoteSeeds: Option<string> := None
  const RecreateKeyspaceOverride := true
  const RemotePort := 7102
  const LocalPort := 9160

  /** A configured value counts only when it is non-null and non-empty. */
  predicate Configured(value: Option<string>) {
    value.Some? && value.value != []
  }

  /**
   * The seed host: the compiled-in override when configured, else the system property when
   * configured, else the local seeds.
   */
  function SeedHost(remoteSeeds: Option<string>, property: Option<string>): (host: string)
    ensures host != []
    ensures Configured(remoteSeeds) ==> host == remoteSeeds.value
    ensures !Configured(remoteSeeds) && Configured(property) ==> host == property.value
    ensures !Configured(remoteSeeds) && !Configured(property) ==> host == LocalSeeds
  {
    var fromOverride := if Configured(remoteSeeds) then remoteSeeds else None;
    var fromProperty := if !Configured(fromOverride) then (if Configured(property) then property else None) else fromOverride;
    if !Configured(fromProperty) then LocalSeeds else fromProperty.value
  }

  /** The tests use a remote cluster exactly when the seed host is not the local one. */
  function UseRemoteCassandra(remoteSeeds: Option<string>, property: Option<string>): (remote: bool)
    ensures remote <==>
      || (Configured(remoteSeeds) && remoteSeeds.value != LocalSeeds)
      || (!Configured(remoteSeeds) && Configured(property) && property.value != LocalSeeds)
  {
    SeedHost(remoteSeeds, property) != LocalSeeds
  }

  function SeedPort(remoteSeeds: Option<string>, property: Option<string>): (port: int)
    ensures port == RemotePort <==> UseRemoteCassandra(remoteSeeds, property)
    ensures port == LocalPort <==> !UseRemoteCassandra(remoteSeeds, property)
  {
    if UseRemoteCassandra(remoteSeeds, property) then RemotePort else LocalPort
  }

  /** With the shipped (null) override, the system property alone decides, and no property means local. */
  lemma ShippedConfiguration(property: Option<string>)
    ensures SeedHost(RemoteSeeds, property) == if Configured(property) then property.value else LocalSeeds
    ensures !Configured(property) ==>
      !UseRemoteCassandra(RemoteSeeds, property) && SeedPort(RemoteSeeds, property) == LocalPort
  {
  }

  /** The cache key of a keyspace context: the cluster name, a '.', and the keyspace name. */
  function GetKey(cluster: string, keyspace: string): (key: string)
    ensures |key| == |cluster| + 1 + |keyspace|
    ensures key[..|cluster|] == cluster && key[|cluster|] == '.' && key[|cluster| + 1..] == keyspace
  {
    cluster + "." + keyspace
  }

  /** Cluster names without a '.' give every (cluster, keyspace) pair its own cache key. */
  lemma KeyInjective(cluster1: string, keyspace1: string, cluster2: string, keyspace2: string)
    requires '.' !in cluster1 && '.' !in cluster2
    ensures GetKey(cluster1, keyspace1) == GetKey(cluster2, keyspace2) <==> cluster1 == cluster2 && keyspace1 == keyspace2
  {
    if GetKey(cluster1, keyspace1) == GetKey(cluster2, keyspace2) {
      assert GetKey(cluster1, keyspace1) == cluster1 + ['.'] + keyspace1;
      assert GetKey(cluster2, keyspace2) == cluster2 + ['.'] + keyspace2;
      SplitAtFirst(cluster1, keyspace1, cluster2, keyspace2, '.');
    }
  }

  /** With a '.' in a cluster name, two different pairs share a cache key. */
  lemma KeyAmbiguousWithDots()
    ensures GetKey("a.b", "c") == GetKey("a", "b.c")
  {
  }

  /** How a new keyspace replicates: the strategy class and its options. */
  datatype KeyspaceOptions = KeyspaceOptions(strategyClass: string, strategyOptions: map<string, string>)

  /**
   * The keyspace definition: one replica with the simple strategy on the local server, three
   * replicas in each of the two data centres with the topology-aware strategy on a remote cluster.
   */
  function KeyspaceStrategy(remote: bool): (options: KeyspaceOptions)
    ensures remote ==> options.strategyClass == "NetworkTopologyStrategy" && options.strategyOptions.Keys == {"us-east", "eu-west"}
    ensures !remote ==> options.strategyClass == "SimpleStrategy" && options.strategyOptions.Keys == {"replication_factor"}
    ensures forall dc :: dc in options.strategyOptions ==> options.strategyOptions[dc] == if remote then "3" else "1"
  {
    if remote then
      KeyspaceOptions("NetworkTopologyStrategy", map["us-east" := "3", "eu-west" := "3"])
    else
      KeyspaceOptions("SimpleStrategy", map["replication_factor" := "1"])
  }

  /**
   * A started client context. Building one is opaque; `id` tells contexts apart, and the host
   * and port are what its host supplier hands out.
   */
  datatype Context = Context(id: nat, cluster: string, keyspace: string, seedHost: string, seedPort: int)

  /** A schema change made on the server. */
  datatype SchemaEvent = Dropped(keyspace: string) | Created(keyspace: string, options: KeyspaceOptions)

  /** The failure of a schema call, passed on to the caller. */
  datatype SchemaError = CreateFailed(keyspace: string)

  class CassandraTestServerProxy {
    /** The value of the seed-host system property, read when the proxy is set up. */
    const seedHostProperty: Option<string>
    var ksContextMap: map<string, Context>
    var clContextMap: map<string, Context>
    /** The number of contexts built so far; the next one gets this as its id. */
    var contextsBuilt: nat
    var embeddedServerStarted: bool
    var schemaLog: seq<SchemaEvent>

    /** Every cached context was built earlier, so a newly built one differs from all of them. */
    predicate Valid()
      reads this
    {
      && (forall key :: key in ksContextMap ==> ksContextMap[key].id < contextsBuilt)
      && (forall cluster :: cluster in clContextMap ==> clContextMap[cluster].id < contextsBuilt)
    }

    /** The ids of every context either cache holds. */
    function CachedIds(): set<nat>
      reads this
    {
      (set key | key in ksContextMap :: ksContextMap[key].id) + (set cluster | cluster in clContextMap :: clContextMap[cluster].id)
    }

    constructor (property: Option<string>)
      ensures seedHostProperty == property
      ensures ksContextMap == map[] && clContextMap == map[]
      ensures contextsBuilt == 0 && !embeddedServerStarted && schemaLog == []
      ensures Valid()
    {
      seedHostProperty := property;
      ksContextMap := map[];
      clContextMap := map[];
      contextsBuilt := 0;
      embeddedServerStarted := false;
      schemaLog := [];
    }

    function SeedHostOf(): string {
      SeedHost(RemoteSeeds, seedHostProperty)
    }

    function Remote(): bool {
      UseRemoteCassandra(RemoteSeeds, seedHostProperty)
    }

    function SeedPortOf(): int {
      SeedPort(RemoteSeeds, seedHostProperty)
    }

    /** Builds and starts a new context: the opaque construction step. */
    method BuildContext(cluster: string, keyspace: string) returns (context: Context)
      modifies this
      ensures context == Context(old(contextsBuilt), cluster, keyspace, SeedHostOf(), SeedPortOf())
      ensures contextsBuilt == old(contextsBuilt) + 1
      ensures ksContextMap == old(ksContextMap) && clContextMap == old(clContextMap)
      ensures embeddedServerStarted == old(embeddedServerStarted) && schemaLog == old(schemaLog)
    {
      context := Context(contextsBuilt, cluster, keyspace, SeedHostOf(), SeedPortOf());
      contextsBuilt := contextsBuilt + 1;
    }

    /**
     * The cluster client for `cluster`: the cached one, or a newly built and started context
     * (bound to the test keyspace) that is cached under the cluster name.
     */
    method GetOrCreateCluster(cluster: string) returns (client: Context)
      requires Valid()
      modifies this
      ensures Valid()
      ensures cluster in clContextMap && client == clContextMap[cluster]
      ensures cluster in old(clContextMap) ==> client == old(clContextMap[cluster]) && contextsBuilt == old(contextsBuilt)
      ensures cluster !in old(clContextMap) ==>
        && client == Context(old(contextsBuilt), cluster, TestKeyspaceName, SeedHostOf(), SeedPortOf())
        && contextsBuilt == old(contextsBuilt) + 1
        && client.id !in old(CachedIds())
      ensures clContextMap == old(clContextMap)[cluster := client]
      ensures ksContextMap == old(ksContextMap)
      ensures embeddedServerStarted == old(embeddedServerStarted) && schemaLog == old(schemaLog)
    {
      if cluster in clContextMap {
        return clContextMap[cluster];
      }
      client := BuildContext(cluster, TestKeyspaceName);
      clContextMap := clContextMap[cluster := client];
    }

    method GetOrCreateDefaultCluster() returns (client: Context)
      requires Valid()
      modifies this
      ensures Valid()
      ensures TestClusterName in clContextMap && client == clContextMap[TestClusterName]
      ensures TestClusterName in old(clContextMap) ==>
        client == old(clContextMap[TestClusterName]) && contextsBuilt == old(contextsBuilt)
      ensures TestClusterName !in old(clContextMap) ==>
        && client == Context(old(contextsBuilt), TestClusterName, TestKeyspaceName, SeedHostOf(), SeedPortOf())
        && contextsBuilt == old(contextsBuilt) + 1
        && client.id !in old(CachedIds())
      ensures clContextMap == old(clContextMap)[TestClusterName := client]
      ensures ksContextMap == old(ksContextMap)
      ensures embeddedServerStarted == old(embeddedServerStarted) && schemaLog == old(schemaLog)
    {
      client := GetOrCreateCluster(TestClusterName);
    }

    /** Creates the keyspace with the strategy the seed host calls for; the server may refuse. */
    method CreateKeyspace(keyspace: string, createSucceeds: bool) returns (r: Result<(), SchemaError>)
      modifies this
      ensures r.Ok? <==> createSucceeds
      ensures r.Err? ==> r.error == CreateFailed(keyspace)
      ensures schemaLog == old(schemaLog) + if createSucceeds then [Created(keyspace, KeyspaceStrategy(Remote()))] else []
      ensures ksContextMap == old(ksContextMap) && clContextMap == old(clContextMap)
      ensures contextsBuilt == old(contextsBuilt) && embeddedServerStarted == old(embeddedServerStarted)
    {
      if !createSucceeds {
        return Err(CreateFailed(keyspace));
      }
      schemaLog := schemaLog + [Created(keyspace, KeyspaceStrategy(Remote()))];
      return Ok(());
    }

    /** Drops the keyspace, ignoring a failed drop, then creates it. */
    method DropAndRecreateKeyspace(keyspace: string, dropSucceeds: bool, createSucceeds: bool)
      returns (r: Result<(), SchemaError>)
      modifies this
      ensures r.Ok? <==> createSucceeds
      ensures r.Err? ==> r.error == CreateFailed(keyspace)
      ensures schemaLog == old(schemaLog) + (if dropSucceeds then [Dropped(keyspace)] else [])
                                          + (if createSucceeds then [Created(keyspace, KeyspaceStrategy(Remote()))] else [])
      ensures ksContextMap == old(ksContextMap) && clContextMap == old(clContextMap)
      ensures contextsBuilt == old(contextsBuilt) && embeddedServerStarted == old(embeddedServerStarted)
    {
      if dropSucceeds {
        schemaLog := schemaLog + [Dropped(keyspace)];
      }
      r := CreateKeyspace(keyspace, createSucceeds);
    }

    /**
     * The keyspace client for (`cluster`, `keyspace`): the cached one, with no schema change; or a
     * newly built and started context, cached under `cluster.keyspace` before the keyspace is
     * (when asked and `RecreateKeyspaceOverride` is set) dropped and recreated. A failed creation is passed on, and
     * the new context stays cached.
     */
    method GetOrCreateKeyspace(cluster: string, keyspace: string, recreate: bool, dropSucceeds: bool, createSucceeds: bool)
      returns (r: Result<Context, SchemaError>)
      requires Valid()
      modifies this
      ensures Valid()
      ensures GetKey(cluster, keyspace) in ksContextMap
      ensures r.Ok? ==> r.value == ksContextMap[GetKey(cluster, keyspace)]
      ensures ksContextMap == old(ksContextMap)[GetKey(cluster, keyspace) := ksContextMap[GetKey(cluster, keyspace)]]
      ensures clContextMap == old(clContextMap) && embeddedServerStarted == old(embeddedServerStarted)
      // cached: the same client, nothing built, no schema change
      ensures GetKey(cluster, keyspace) in old(ksContextMap) ==>
        && r == Ok(old(ksContextMap[GetKey(cluster, keyspace)]))
        && contextsBuilt == old(contextsBuilt) && schemaLog == old(schemaLog)
      // first call: exactly one new context, and the keyspace recreated when asked
      ensures GetKey(cluster, keyspace) !in old(ksContextMap) ==>
        && ksContextMap[GetKey(cluster, keyspace)] == Context(old(contextsBuilt), cluster, keyspace, SeedHostOf(), SeedPortOf())
        && contextsBuilt == old(contextsBuilt) + 1
        && ksContextMap[GetKey(cluster, keyspace)].id !in old(CachedIds())
        && (r.Err? <==> recreate && RecreateKeyspaceOverride && !createSucceeds)
        && (r.Err? ==> r.error == CreateFailed(keyspace))
        && schemaLog == old(schemaLog)
             + (if recreate && RecreateKeyspaceOverride && dropSucceeds then [Dropped(keyspace)] else [])
             + (if recreate && RecreateKeyspaceOverride && createSucceeds then [Created(keyspace, KeyspaceStrategy(Remote()))] else [])
    {
      var key := GetKey(cluster, keyspace);
      if key in ksContextMap {
        return Ok(ksContextMap[key]);
      }
      var context := BuildContext(cluster, keyspace);
      ksContextMap := ksContextMap[key := context];
      if recreate && RecreateKeyspaceOverride {
        var created := DropAndRecreateKeyspace(keyspace, dropSucceeds, createSucceeds);
        if created.Err? {
          return Err(created.error);
        }
      }
      return Ok(context);
    }

    method GetOrCreateDefaultKeyspace(dropSucceeds: bool, createSucceeds: bool) returns (r: Result<Context, SchemaError>)
      requires Valid()
      modifies this
      ensures Valid()
      ensures GetKey(TestClusterName, TestKeyspaceName) in ksContextMap
      ensures r.Ok? ==> r.value == ksContextMap[GetKey(TestClusterName, TestKeyspaceName)]
      ensures ksContextMap == old(ksContextMap)[GetKey(TestClusterName, TestKeyspaceName) := ksContextMap[GetKey(TestClusterName, TestKeyspaceName)]]
      ensures clContextMap == old(clContextMap) && embeddedServerStarted == old(embeddedServerStarted)
      // cached: the same client, nothing built, no schema change
      ensures GetKey(TestClusterName, TestKeyspaceName) in old(ksContextMap) ==>
        && r == Ok(old(ksContextMap[GetKey(TestClusterName, TestKeyspaceName)]))
        && contextsBuilt == old(contextsBuilt) && schemaLog == old(schemaLog)
      // first call: exactly one new context, and the keyspace always dropped and recreated
      ensures GetKey(TestClusterName, TestKeyspaceName) !in old(ksContextMap) ==>
        && ksContextMap[GetKey(TestClusterName, TestKeyspaceName)]
             == Context(old(contextsBuilt), TestClusterName, TestKeyspaceName, SeedHostOf(), SeedPortOf())
        && contextsBuilt == old(contextsBuilt) + 1
        && ksContextMap[GetKey(TestClusterName, TestKeyspaceName)].id !in old(CachedIds())
        && (r.Err? <==> !createSucceeds)
        && (r.Err? ==> r.error == CreateFailed(TestKeyspaceName))
        && schemaLog == old(schemaLog)
             + (if dropSucceeds then [Dropped(TestKeyspaceName)] else [])
             + (if createSucceeds then [Created(TestKeyspaceName, KeyspaceStrategy(Remote()))] else [])
    {
      r := GetOrCreateKeyspace(TestClusterName, TestKeyspaceName, true, dropSucceeds, createSucceeds);
    }

    /** Starts the embedded server unless a remote cluster is used; the embedded server is a singleton. */
    method StartCassServer()
      modifies this
      ensures embeddedServerStarted == (old(embeddedServerStarted) || !Remote())
      ensures ksContextMap == old(ksContextMap) && clContextMap == old(clContextMap)
      ensures contextsBuilt == old(contextsBuilt) && schemaLog == old(schemaLog)
    {
      if Remote() {
        return;
      }
      embeddedServerStarted := true;
    }
  }

  /**
   * Two requests for the same keyspace: the second returns the client of the first, builds
   * nothing and changes no schema; only the first one recreated the keyspace.
   */
  method SameKeyspaceTwice(proxy: CassandraTestServerProxy, cluster: string, keyspace: string)
    returns (first: Result<Context, SchemaError>, second: Result<Context, SchemaError>)
    requires proxy.Valid() && GetKey(cluster, keyspace) !in proxy.ksContextMap
    modifies proxy
    ensures first.Ok? && second == first
    ensures second.Ok? && second.value.id == old(proxy.contextsBuilt)
    ensures proxy.contextsBuilt == old(proxy.contextsBuilt) + 1
    ensures proxy.schemaLog == old(proxy.schemaLog) + [Dropped(keyspace), Created(keyspace, KeyspaceStrategy(proxy.Remote()))]
  {
    first := proxy.GetOrCreateKeyspace(cluster, keyspace, true, true, true);
    second := proxy.GetOrCreateKeyspace(cluster, keyspace, true, true, true);
  }
}
