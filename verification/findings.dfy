/**
 * Three consequences of the rotation path as written, each shown on a
 * concrete sequence of calls, and a corrected rotation with the intended
 * properties proved for every input.
 */
module Findings {
  import opened Wrappers
  import opened Objects
  import opened ConnProperties
  import opened Classifiers
  import opened DbClient
  import opened DbClientProperties

  // ---------------------------------------------------------------- as written

  const Orders: Classifier := map["service" := Str("orders"), "scope" := Str("default")]

  /** A client with its own empty options object (ref 1) on an empty cache (ref 0). */
  const OrdersClient := MongoDbClient(Some(1), 0, 0, DbParams(Some(CustomClassifierFn(_ => Orders)), BaseDbParams("")))
  const StartHeap := Heap(map[1 := EmptyOptions], map[], map[0 := map[]], 2)
  const AnyCtx := Ctx(map[], None)

  function Props(url: string, password: string, authDbName: string, dbName: string): PropertyMap {
    map["url" := Str(url), "username" := Str("u"), "password" := Str(password),
        "authDbName" := Str(authDbName), "dbName" := Str(dbName)]
  }

  /** Answers for a first connect that yields driver client `client`. */
  function FirstConnect(props: PropertyMap, client: nat): Collaborators {
    Collaborators(Ok(props), _ => Ok(""), Ok(client), PingOk, Err(DriverError(0)), Pass, Err(DriverError(0)))
  }

  /** Answers for an authentication failure rotated to `props` and driver client `client`. */
  function Rotation(props: PropertyMap, client: nat): Collaborators {
    Collaborators(Err(DriverError(0)), _ => Ok(""), Err(DriverError(0)), PingAuthError, Ok(props), Pass, Ok(client))
  }

  /** Answers under which a first connect succeeds and the new handle pings healthy. */
  predicate ConnectsCleanly(o: Collaborators) {
    && o.getOrCreateDb.Ok? && WellFormed(o.getOrCreateDb.value)
    && o.parseUrl(o.getOrCreateDb.value["url"].s).Ok? && o.connect.Ok? && o.ping == PingOk
  }

  /** Answers under which a rotation fetches well-formed properties, disconnects and reconnects. */
  predicate RotatesCleanly(o: Collaborators) {
    && o.ping == PingAuthError && o.getConnection.Ok? && WellFormed(o.getConnection.value)
    && o.disconnect.Pass? && o.reconnect.Ok?
  }

  /**
   * A first connect caches client `o1.connect`; a rotation then disconnects
   * that client and returns the reconnected one, yet leaves the
   * disconnected client in the cache slot.
   */
  lemma RotationKeepsDisconnectedHandle(h: Heap, c: MongoDbClient, ctx: Ctx, o1: Collaborators, o2: Collaborators)
    requires Valid(h) && ClientIn(h, c)
    requires KeyOf(c, ctx).Some? && KeyOf(c, ctx).value !in h.caches[c.cache]
    requires ConnectsCleanly(o1) && RotatesCleanly(o2)
    ensures var key := KeyOf(c, ctx).value;
      var s1 := GetMongoDatabase(h, c, ctx, o1);
      var s2 := GetMongoDatabase(s1.heap, c, ctx, o2);
      && s2.reply == Returned(Database(o2.reconnect.value, ToMongoConnProperties(o2.getConnection.value).authDbName))
      && s2.trace[2] == Disconnect(o1.connect.value)
      && key in s2.heap.caches[c.cache]
      && s2.heap.caches[c.cache][key].mongoDb == Database(o1.connect.value, GetDbName(o1.getOrCreateDb.value))
  {
    FirstConnectUsesDbName(h, c, ctx, o1);
    var s1 := GetMongoDatabase(h, c, ctx, o1);
    SuccessfulRotation(s1.heap, c, ctx, o2);
  }

  /**
   * After that rotation, the next call probes the client the rotation
   * disconnected. If the driver reports that probe healthy, the closed
   * handle is returned; if it fails with an error that is not a connection
   * error, the call panics. The reconnected client is never handed out.
   */
  lemma StaleSlotAfterRotation(h: Heap, c: MongoDbClient, ctx: Ctx, o1: Collaborators, o2: Collaborators, o3: Collaborators)
    requires Valid(h) && ClientIn(h, c)
    requires KeyOf(c, ctx).Some? && KeyOf(c, ctx).value !in h.caches[c.cache]
    requires ConnectsCleanly(o1) && RotatesCleanly(o2)
    ensures var s1 := GetMongoDatabase(h, c, ctx, o1);
      var s2 := GetMongoDatabase(s1.heap, c, ctx, o2);
      var s3 := GetMongoDatabase(s2.heap, c, ctx, o3);
      var stale := Database(o1.connect.value, GetDbName(o1.getOrCreateDb.value));
      && s2.trace[2] == Disconnect(o1.connect.value)
      && s3.trace[0] == Ping(o1.connect.value)
      && (o3.ping == PingOk ==> s3 == Step(s2.heap, [Ping(o1.connect.value)], Returned(stale)))
      && (o3.ping == PingOtherError ==> s3.reply == Panicked)
  {
    RotationKeepsDisconnectedHandle(h, c, ctx, o1, o2);
    var s1 := GetMongoDatabase(h, c, ctx, o1);
    var s2 := GetMongoDatabase(s1.heap, c, ctx, o2);
    if o3.ping == PingOk {
      HealthyHitReturnsCached(s2.heap, c, ctx, o3);
    }
  }

  /** A database named by `dbName` comes back, after a rotation, named by `authDbName`. */
  lemma RotationSwitchesToAuthDb()
    ensures var s1 := GetMongoDatabase(StartHeap, OrdersClient, AnyCtx, FirstConnect(Props("db://h/admin", "p1", "admin", "orders"), 1));
      var s2 := GetMongoDatabase(s1.heap, OrdersClient, AnyCtx, Rotation(Props("db://h/admin", "p2", "admin", "orders"), 2));
      && s1.reply == Returned(Database(1, "orders"))
      && s2.reply == Returned(Database(2, "admin"))
  {
    var key := CacheKey(DbType, Orders);
    assert KeyOf(OrdersClient, AnyCtx) == Some(key);
    var o1 := FirstConnect(Props("db://h/admin", "p1", "admin", "orders"), 1);
    var o2 := Rotation(Props("db://h/admin", "p2", "admin", "orders"), 2);
    assert GetDbName(o1.getOrCreateDb.value) == "orders";
    assert ToMongoConnProperties(o2.getConnection.value).authDbName == "admin";
    assert ConnectsCleanly(o1) && RotatesCleanly(o2);
    FirstConnectUsesDbName(StartHeap, OrdersClient, AnyCtx, o1);
    RotationKeepsDisconnectedHandle(StartHeap, OrdersClient, AnyCtx, o1, o2);
  }


  /**
   * A rotation reconnects with whatever credential the client's options
   * point to. When that is not the cached entry's own credential, the
   * rewritten password is not used at all: the reconnect carries the
   * options' URL and their untouched credential.
   */
  lemma RotationReconnectsWithOptionsCredential(h: Heap, c: MongoDbClient, ctx: Ctx, o: Collaborators)
    requires Valid(h) && ClientIn(h, c) && c.options.Some?
    requires KeyOf(c, ctx).Some? && KeyOf(c, ctx).value in h.caches[c.cache]
    requires h.options[c.options.value].auth.Some?
    requires h.options[c.options.value].auth != Some(h.caches[c.cache][KeyOf(c, ctx).value].auth)
    requires o.ping == PingAuthError && o.getConnection.Ok? && WellFormed(o.getConnection.value)
    requires o.disconnect.Pass? && o.reconnect.Ok?
    ensures var opts := h.options[c.options.value];
      var t := GetMongoDatabase(h, c, ctx, o).trace;
      && |t| == 4
      && t[3] == Connect(ConnectArgs(opts.uri, opts.tls, Some(h.creds[opts.auth.value])))
  {
    SuccessfulRotation(h, c, ctx, o);
  }

  /**
   * A first connect for another key b leaves key a's slot as it was but
   * points the client's options at b's URL and b's new credential, so a
   * later rotation of a (above) reconnects to b's server as b's user.
   */
  lemma OtherKeyRepointsOptions(h: Heap, c: MongoDbClient, ctxA: Ctx, ctxB: Ctx, o: Collaborators)
    requires Valid(h) && ClientIn(h, c) && c.options.Some?
    requires KeyOf(c, ctxA).Some? && KeyOf(c, ctxA).value in h.caches[c.cache]
    requires KeyOf(c, ctxB).Some? && KeyOf(c, ctxB).value !in h.caches[c.cache]
    requires ConnectsCleanly(o)
    ensures var r := GetMongoDatabase(h, c, ctxB, o);
      var b := o.getOrCreateDb.value;
      var opts := r.heap.options[c.options.value];
      && r.heap.caches[c.cache][KeyOf(c, ctxA).value] == h.caches[c.cache][KeyOf(c, ctxA).value]
      && opts.uri == Some(b["url"].s)
      && opts.auth.Some? && opts.auth != Some(h.caches[c.cache][KeyOf(c, ctxA).value].auth)
      && r.heap.creds[opts.auth.value].password == b["password"].s
  {
    FirstConnectSharesCredential(h, c, ctxB, o);
  }

  /**
   * The whole sequence: a connects, b connects, a's password is rotated;
   * the reconnect goes to b's URL with b's password.
   */
  lemma RotationReconnectsToOtherKey(h: Heap, c: MongoDbClient, ctxA: Ctx, ctxB: Ctx,
                                     o1: Collaborators, o2: Collaborators, o3: Collaborators)
    requires Valid(h) && ClientIn(h, c) && c.options.Some?
    requires KeyOf(c, ctxA).Some? && KeyOf(c, ctxB).Some? && KeyOf(c, ctxA) != KeyOf(c, ctxB)
    requires KeyOf(c, ctxA).value !in h.caches[c.cache] && KeyOf(c, ctxB).value !in h.caches[c.cache]
    requires ConnectsCleanly(o1) && ConnectsCleanly(o2)
    requires o3.ping == PingAuthError && o3.getConnection.Ok? && WellFormed(o3.getConnection.value)
    requires o3.disconnect.Pass? && o3.reconnect.Ok?
    ensures var s1 := GetMongoDatabase(h, c, ctxA, o1);
      var s2 := GetMongoDatabase(s1.heap, c, ctxB, o2);
      var t := GetMongoDatabase(s2.heap, c, ctxA, o3).trace;
      && |t| == 4 && t[3].Connect?
      && t[3].args.uri == Some(o2.getOrCreateDb.value["url"].s)
      && t[3].args.credential.Some?
      && t[3].args.credential.value.password == o2.getOrCreateDb.value["password"].s
  {
    FirstConnectSharesCredential(h, c, ctxA, o1);
    var s1 := GetMongoDatabase(h, c, ctxA, o1);
    OtherKeyRepointsOptions(s1.heap, c, ctxA, ctxB, o2);
    var s2 := GetMongoDatabase(s1.heap, c, ctxB, o2);
    RotationReconnectsWithOptionsCredential(s2.heap, c, ctxA, o3);
  }

  // ---------------------------------------------------------------- corrected

  /**
   * Corrected rotation: after the disconnect, rebuild the client's options
   * from the fetched properties (same options object, so caller tuning is
   * kept unless the URL sets the same option), reconnect, name the database by getDbName, and replace the
   * cache slot with the new entry.
   */
  function UseCachedMongoDbCorrected(h: Heap, c: MongoDbClient, key: CacheKey, entry: CachedMongoDatabase,
                                     o: Collaborators): (r: Step)
    requires Valid(h) && ClientIn(h, c) && key in h.caches[c.cache] && h.caches[c.cache][key] == entry
    ensures Valid(r.heap) && Extends(h, r.heap) && ClientIn(r.heap, c)
    ensures key in r.heap.caches[c.cache]
    ensures |r.trace| >= 1 && r.trace[0] == Ping(entry.mongoDb.client)
    // whatever it returns is what the cache holds for the key
    ensures r.reply.Returned? ==> r.heap.caches[c.cache][key].mongoDb == r.reply.value
    ensures o.ping != PingAuthError ==> r == UseCachedMongoDb(h, c, key.classifier, entry, o)
    ensures o.ping == PingAuthError && o.getConnection.Ok? && WellFormed(o.getConnection.value)
            && o.disconnect.Pass? && o.parseUrl(o.getConnection.value["url"].s).Ok? && o.reconnect.Ok? ==>
      var m := o.getConnection.value;
      && r.reply == Returned(Database(o.reconnect.value, GetDbName(m)))
      && |r.trace| == 4 && r.trace[3].Connect?
      && r.trace[3].args.uri == Some(m["url"].s)
      && r.trace[3].args.credential.Some?
      && r.trace[3].args.credential.value.username == m["username"].s
      && r.trace[3].args.credential.value.password == m["password"].s
  {
    var ev := [Ping(entry.mongoDb.client)];
    match IsPasswordValid(o.ping)
    case None => Step(h, ev, Panicked)
    case Some(true) => Step(h, ev, Returned(entry.mongoDb))
    case Some(false) =>
      var ev1 := ev + [GetExisting(DbType, key.classifier, c.params.base)];
      match o.getConnection
      case Err(e) => Step(h, ev1, Failed(e))
      case Ok(m) =>
        if !WellFormed(m) then Step(h, ev1, Panicked)
        else
          var ev2 := ev1 + [Disconnect(entry.mongoDb.client)];
          match o.disconnect
          case Fail(e) => Step(h, ev2, Failed(e))
          case Pass =>
            var b := BuildMongoOptions(h, c.options, m, o.parseUrl);
            match b.opts
            case Err(e) => Step(b.heap, ev2, Failed(e))
            case Ok(opts) =>
              var ev3 := ev2 + [Connect(Snapshot(b.heap, Some(opts)))];
              match o.reconnect
              case Err(e) => Step(b.heap, ev3, Failed(e))
              case Ok(client) =>
                var renewed := CachedMongoDatabase(Database(client, GetDbName(m)), b.heap.options[opts].auth.value);
                Step(StoreInCache(b.heap, c.cache, key, renewed), ev3, Returned(renewed.mongoDb))
  }

  /** GetMongoDatabase with the corrected rotation; lookup and first connect are unchanged. */
  function GetMongoDatabaseCorrected(h: Heap, c: MongoDbClient, ctx: Ctx, o: Collaborators): (r: Step)
    requires Valid(h) && ClientIn(h, c)
    ensures Valid(r.heap) && Extends(h, r.heap) && ClientIn(r.heap, c)
    ensures r.reply.Returned? ==>
      KeyOf(c, ctx).Some? && KeyOf(c, ctx).value in r.heap.caches[c.cache]
      && r.heap.caches[c.cache][KeyOf(c, ctx).value].mongoDb == r.reply.value
  {
    match KeyOf(c, ctx)
    case None => Step(h, [], Panicked)
    case Some(key) =>
      if key in h.caches[c.cache] then UseCachedMongoDbCorrected(h, c, key, h.caches[c.cache][key], o)
      else
        var f := CreateNewMongoDb(h, c, key.classifier, o);
        match f.result
        case Panicked => Step(f.heap, f.trace, Panicked)
        case Failed(e) => Step(f.heap, f.trace, Failed(e))
        case Returned(entry) =>
          var h1 := StoreInCache(f.heap, c.cache, key, entry);
          var u := UseCachedMongoDbCorrected(h1, c, key, entry, o);
          Step(u.heap, f.trace + u.trace, u.reply)
  }

  /** Corrected: every returned handle is the one cached, so the next call probes the handle last returned. */
  lemma CorrectedRotationReplacesSlot(h: Heap, c: MongoDbClient, ctx: Ctx, o1: Collaborators, o2: Collaborators)
    requires Valid(h) && ClientIn(h, c)
    requires GetMongoDatabaseCorrected(h, c, ctx, o1).reply.Returned?
    ensures var s1 := GetMongoDatabaseCorrected(h, c, ctx, o1);
      var s2 := GetMongoDatabaseCorrected(s1.heap, c, ctx, o2);
      && |s2.trace| >= 1 && s2.trace[0] == Ping(s1.reply.value.client)
  {
    var s1 := GetMongoDatabaseCorrected(h, c, ctx, o1);
    var key := KeyOf(c, ctx).value;
    var entry := s1.heap.caches[c.cache][key];
    assert GetMongoDatabaseCorrected(s1.heap, c, ctx, o2) == UseCachedMongoDbCorrected(s1.heap, c, key, entry, o2);
  }

  /** Corrected: a rotated database keeps the name getDbName gives the fetched properties. */
  lemma CorrectedRotationKeepsDbName(h: Heap, c: MongoDbClient, ctx: Ctx, o: Collaborators)
    requires Valid(h) && ClientIn(h, c)
    requires KeyOf(c, ctx).Some? && KeyOf(c, ctx).value in h.caches[c.cache]
    requires o.ping == PingAuthError && o.getConnection.Ok? && WellFormed(o.getConnection.value)
    requires o.disconnect.Pass? && o.parseUrl(o.getConnection.value["url"].s).Ok? && o.reconnect.Ok?
    ensures GetMongoDatabaseCorrected(h, c, ctx, o).reply == Returned(Database(o.reconnect.value, GetDbName(o.getConnection.value)))
  {
  }

  /** Corrected: the reconnect uses the fetched URL and credential, whatever other keys did to the options. */
  lemma CorrectedRotationUsesFetchedUrl(h: Heap, c: MongoDbClient, ctx: Ctx, o: Collaborators)
    requires Valid(h) && ClientIn(h, c)
    requires KeyOf(c, ctx).Some? && KeyOf(c, ctx).value in h.caches[c.cache]
    requires o.ping == PingAuthError && o.getConnection.Ok? && WellFormed(o.getConnection.value)
    requires o.disconnect.Pass? && o.parseUrl(o.getConnection.value["url"].s).Ok? && o.reconnect.Ok?
    ensures var m := o.getConnection.value;
      var t := GetMongoDatabaseCorrected(h, c, ctx, o).trace;
      && |t| == 4 && t[3].Connect?
      && t[3].args.uri == Some(m["url"].s)
      && t[3].args.credential.Some? && t[3].args.credential.value.password == m["password"].s
  {
  }
}
