/**
 * mongoDatabase (mongo_database.go): the per-params handle from which
 * driver clients and raw connection properties are obtained.
 */
module MongoDatabases {
  import opened Wrappers
  import opened Objects
  import opened ConnProperties
  import opened Classifiers
  import opened DbClient

  /** mongoDatabase: the DbaaS pool, the resolved params, and the shared cache pointer. */
  datatype MongoDatabase = MongoDatabase(dbaasPool: nat, params: DbParams, mongoCache: Ref)

  /** The heap after GetMongoDbClient and the client it built (its error is always nil). */
  datatype ClientMade = ClientMade(heap: Heap, client: MongoDbClient)

  /** GetMongoDbClient: the first supplied options, else a new empty options object. */
  function GetMongoDbClient(h: Heap, d: MongoDatabase, opts: seq<Option<Ref>>): (r: ClientMade)
    requires Valid(h) && d.mongoCache in h.caches
    requires |opts| > 0 ==> OptionsIn(h, opts[0])
    ensures Valid(r.heap) && Extends(h, r.heap) && ClientIn(r.heap, r.client)
    ensures r.client.cache == d.mongoCache && r.client.params == d.params && r.client.dbaasClient == d.dbaasPool
    ensures |opts| > 0 ==> r.heap == h && r.client.options == opts[0]
    ensures |opts| == 0 ==>
      && r.client.options.Some? && r.client.options.value !in h.options
      && r.heap == h.(options := h.options[r.client.options.value := EmptyOptions], next := r.heap.next)
  {
    if |opts| > 0 then ClientMade(h, MongoDbClient(opts[0], d.dbaasPool, d.mongoCache, d.params))
    else
      var o := h.next;
      ClientMade(h.(options := h.options[o := EmptyOptions], next := o + 1),
                 MongoDbClient(Some(o), d.dbaasPool, d.mongoCache, d.params))
  }

  /** What a connection-properties lookup made and returned. */
  datatype Lookup = Lookup(trace: seq<Event>, reply: Reply<MongoConnProperties>)

  /** The decoding shared by both lookups: errors pass through unchanged. */
  function Decoded(answer: Result<PropertyMap, Error>): (r: Reply<MongoConnProperties>)
    ensures answer.Err? ==> r == Failed(answer.error)
    ensures r.Returned? <==> answer.Ok? && WellFormed(answer.value)
    ensures r.Returned? ==> r.value == ToMongoConnProperties(answer.value)
  {
    match answer
    case Err(e) => Failed(e)
    case Ok(m) => if WellFormed(m) then Returned(ToMongoConnProperties(m)) else Panicked
  }

  /** GetConnectionProperties: get-or-create, then decode. */
  function GetConnectionProperties(d: MongoDatabase, ctx: Ctx, getOrCreateDb: Result<PropertyMap, Error>): (r: Lookup)
    ensures Classify(d.params.classifier, ctx).None? ==> r == Lookup([], Panicked)
    ensures Classify(d.params.classifier, ctx).Some? ==>
      && r.trace == [GetOrCreate(DbType, Classify(d.params.classifier, ctx).value, d.params.base)]
      && r.reply == Decoded(getOrCreateDb)
  {
    match Classify(d.params.classifier, ctx)
    case None => Lookup([], Panicked)
    case Some(classifier) => Lookup([GetOrCreate(DbType, classifier, d.params.base)], Decoded(getOrCreateDb))
  }

  /** FindConnectionProperties: get-existing (never get-or-create), then decode. */
  function FindConnectionProperties(d: MongoDatabase, ctx: Ctx, getConnection: Result<PropertyMap, Error>): (r: Lookup)
    ensures Classify(d.params.classifier, ctx).None? ==> r == Lookup([], Panicked)
    ensures Classify(d.params.classifier, ctx).Some? ==>
      && r.trace == [GetExisting(DbType, Classify(d.params.classifier, ctx).value, d.params.base)]
      && r.reply == Decoded(getConnection)
  {
    match Classify(d.params.classifier, ctx)
    case None => Lookup([], Panicked)
    case Some(classifier) => Lookup([GetExisting(DbType, classifier, d.params.base)], Decoded(getConnection))
  }

  /** A DbaaS error such as a 404 reaches the caller of either lookup with its status intact. */
  lemma LookupErrorsKeepStatus(d: MongoDatabase, ctx: Ctx, code: int, message: string)
    requires Classify(d.params.classifier, ctx).Some?
    ensures GetConnectionProperties(d, ctx, Err(DbaasError(code, message))).reply == Failed(DbaasError(code, message))
    ensures FindConnectionProperties(d, ctx, Err(DbaasError(code, message))).reply == Failed(DbaasError(code, message))
  {
  }

  /** Given the same answer, both lookups return the same properties; they differ only in the call made. */
  lemma LookupsAgree(d: MongoDatabase, ctx: Ctx, answer: Result<PropertyMap, Error>)
    ensures GetConnectionProperties(d, ctx, answer).reply == FindConnectionProperties(d, ctx, answer).reply
    ensures |GetConnectionProperties(d, ctx, answer).trace| == |FindConnectionProperties(d, ctx, answer).trace|
    ensures forall i :: 0 <= i < |GetConnectionProperties(d, ctx, answer).trace| ==>
      GetConnectionProperties(d, ctx, answer).trace[i].GetOrCreate? && FindConnectionProperties(d, ctx, answer).trace[i].GetExisting?
  {
  }

  /** The lookup in the tests: the stub answer decodes to its username and password. */
  lemma LookupOfStubAnswer(d: MongoDatabase, ctx: Ctx)
    requires Classify(d.params.classifier, ctx).Some?
    ensures var answer := map["password" := Str("qwerty127"), "url" := Str("mongodb://mongodb0.example.com:27017/name"),
                               "username" := Str("service_test"), "authDbName" := Str("name")];
      && GetConnectionProperties(d, ctx, Ok(answer)).reply ==
           Returned(MongoConnProperties("mongodb://mongodb0.example.com:27017/name", "service_test", "qwerty127", "name", "name"))
  {
  }
}
