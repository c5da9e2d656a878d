/**
 * DbaaSMongoDbClient (mongo_client.go): the entry point that hands out
 * service and tenant databases sharing one cache, with defaulted params.
 */
module MongoClient {
  import opened Wrappers
  import opened Objects
  import opened Classifiers
  import opened MongoDatabases

  /** DbaaSMongoDbClient: its cache (a field, shared by address) and the DbaaS pool. */
  datatype DbaaSMongoDbClient = DbaaSMongoDbClient(mongoClientCache: Ref, pool: nat)

  datatype NewClientResult = NewClientResult(heap: Heap, client: DbaaSMongoDbClient)

  /** NewClient: a client owning a new, empty cache. */
  function NewClient(h: Heap, pool: nat): (r: NewClientResult)
    requires Valid(h)
    ensures Valid(r.heap) && Extends(h, r.heap)
    ensures r.client.mongoClientCache !in h.caches && r.client.mongoClientCache in r.heap.caches && r.heap.caches[r.client.mongoClientCache] == map[]
    ensures r.heap.options == h.options && r.heap.creds == h.creds
    ensures forall x :: x in h.caches ==> r.heap.caches[x] == h.caches[x]
    ensures r.client.pool == pool
  {
    var c := h.next;
    NewClientResult(h.(caches := h.caches[c := map[]], next := c + 1), DbaaSMongoDbClient(c, pool))
  }

  /** The defaulting shared by both builders: first params only, nil classifier replaced. */
  function BuildDbParams(params: seq<DbParams>, default: ClassifierFn): (r: DbParams)
    ensures r.classifier.Some?
    ensures |params| == 0 ==> r == DbParams(Some(default), ZeroParams.base)
    ensures |params| > 0 && params[0].classifier.Some? ==> r == params[0]
    ensures |params| > 0 && params[0].classifier.None? ==> r == params[0].(classifier := Some(default))
  {
    var local := if |params| > 0 then params[0] else ZeroParams;
    if local.classifier.None? then local.(classifier := Some(default)) else local
  }

  /** buildServiceDbParams. */
  function BuildServiceDbParams(params: seq<DbParams>): (r: DbParams)
    ensures r.classifier.Some?
    ensures |params| == 0 ==> r == DbParams(Some(ServiceClassifierFn), BaseDbParams(""))
    ensures |params| > 0 ==> r.base == params[0].base
    ensures |params| > 0 && params[0].classifier.Some? ==> r == params[0]
    ensures |params| > 0 && params[0].classifier.None? ==> r.classifier == Some(ServiceClassifierFn)
  {
    BuildDbParams(params, ServiceClassifierFn)
  }

  /** buildTenantDbParams. */
  function BuildTenantDbParams(params: seq<DbParams>): (r: DbParams)
    ensures r.classifier.Some?
    ensures |params| == 0 ==> r == DbParams(Some(TenantClassifierFn), BaseDbParams(""))
    ensures |params| > 0 ==> r.base == params[0].base
    ensures |params| > 0 && params[0].classifier.Some? ==> r == params[0]
    ensures |params| > 0 && params[0].classifier.None? ==> r.classifier == Some(TenantClassifierFn)
  {
    BuildDbParams(params, TenantClassifierFn)
  }

  /** ServiceDatabase. */
  function ServiceDatabase(d: DbaaSMongoDbClient, params: seq<DbParams>): (db: MongoDatabase)
    ensures db.mongoCache == d.mongoClientCache && db.dbaasPool == d.pool
    ensures db.params == BuildServiceDbParams(params)
  {
    MongoDatabase(d.pool, BuildServiceDbParams(params), d.mongoClientCache)
  }

  /** TenantDatabase. */
  function TenantDatabase(d: DbaaSMongoDbClient, params: seq<DbParams>): (db: MongoDatabase)
    ensures db.mongoCache == d.mongoClientCache && db.dbaasPool == d.pool
    ensures db.params == BuildTenantDbParams(params)
  {
    MongoDatabase(d.pool, BuildTenantDbParams(params), d.mongoClientCache)
  }

  /** Without params, the databases resolve classifiers with the defaults. */
  lemma DefaultClassifiers(d: DbaaSMongoDbClient, ctx: Ctx)
    ensures Classify(ServiceDatabase(d, []).params.classifier, ctx) == Some(ServiceClassifier(ctx))
    ensures Classify(TenantDatabase(d, []).params.classifier, ctx) == TenantClassifier(ctx)
    ensures TenantClassifier(ctx).None? <==> ctx.baseTenant.None?
  {
  }

  /** Only the first params value matters, and defaulting twice changes nothing. */
  lemma {:induction false} ParamsDefaultingIsStable(params: seq<DbParams>, more: seq<DbParams>)
    requires |params| > 0
    ensures BuildServiceDbParams(params + more) == BuildServiceDbParams(params[..1])
    ensures BuildTenantDbParams(params + more) == BuildTenantDbParams(params[..1])
    ensures BuildServiceDbParams([BuildServiceDbParams(params)]) == BuildServiceDbParams(params)
    ensures BuildTenantDbParams([BuildTenantDbParams(params)]) == BuildTenantDbParams(params)
  {
    assert (params + more)[0] == params[0] == params[..1][0];
  }

  /** Any service and tenant database of one client share its cache. */
  lemma DatabasesShareCache(d: DbaaSMongoDbClient, ps: seq<DbParams>, qs: seq<DbParams>)
    ensures ServiceDatabase(d, ps).mongoCache == TenantDatabase(d, qs).mongoCache == d.mongoClientCache
  {
  }
}
