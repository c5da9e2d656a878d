/**
 * Properties of GetMongoDatabase over one call, two calls, and any
 * sequence of calls on one client.
 */
module DbClientProperties {
  import opened Wrappers
  import opened Objects
  import opened ConnProperties
  import opened Classifiers
  import opened DbClient

  /** Number of get-or-create (provisioning) calls in a trace. */
  function Provisions(t: seq<Event>): (n: nat)
    ensures n <= |t|
  {
    if |t| == 0 then 0 else (if t[0].GetOrCreate? then 1 else 0) + Provisions(t[1..])
  }

  lemma {:induction false} ProvisionsAppend(a: seq<Event>, b: seq<Event>)
    ensures Provisions(a + b) == Provisions(a) + Provisions(b)
    decreases |a|
  {
    if |a| > 0 {
      assert (a + b)[1..] == a[1..] + b;
      ProvisionsAppend(a[1..], b);
    } else {
      assert a + b == b;
    }
  }

  lemma {:induction false} ProvisionsNone(t: seq<Event>)
    requires forall i :: 0 <= i < |t| ==> !t[i].GetOrCreate?
    ensures Provisions(t) == 0
    decreases |t|
  {
    if |t| > 0 {
      ProvisionsNone(t[1..]);
    }
  }

  /** A call provisions once on a miss and never on a hit. */
  lemma ProvisionsPerCall(h: Heap, c: MongoDbClient, ctx: Ctx, o: Collaborators)
    requires Valid(h) && ClientIn(h, c)
    ensures var r := GetMongoDatabase(h, c, ctx, o);
      Provisions(r.trace) == if KeyOf(c, ctx).Some? && KeyOf(c, ctx).value !in h.caches[c.cache] then 1 else 0
  {
    var r := GetMongoDatabase(h, c, ctx, o);
    match KeyOf(c, ctx)
    case None =>
    case Some(key) =>
      if key in h.caches[c.cache] {
        ProvisionsNone(r.trace);
      } else {
        var f := CreateNewMongoDb(h, c, key.classifier, o);
        assert Provisions(f.trace) == 1 by {
          assert f.trace == [f.trace[0]] + f.trace[1..];
          ProvisionsAppend([f.trace[0]], f.trace[1..]);
          ProvisionsNone(f.trace[1..]);
        }
        if f.result.Returned? {
          var u := UseCachedMongoDb(StoreInCache(f.heap, c.cache, key, f.result.value), c, key.classifier, f.result.value, o);
          ProvisionsAppend(f.trace, u.trace);
          ProvisionsNone(u.trace);
        }
      }
  }

  /** Provisioning, URL and connect errors of the factory are returned unchanged and nothing is cached. */
  lemma FactoryErrorIsReturned(h: Heap, c: MongoDbClient, ctx: Ctx, o: Collaborators, e: Error)
    requires Valid(h) && ClientIn(h, c)
    requires KeyOf(c, ctx).Some? && KeyOf(c, ctx).value !in h.caches[c.cache]
    requires || o.getOrCreateDb == Err(e)
             || (&& o.getOrCreateDb.Ok? && WellFormed(o.getOrCreateDb.value)
                 && o.parseUrl(o.getOrCreateDb.value["url"].s) == Err(e))
             || (&& o.getOrCreateDb.Ok? && WellFormed(o.getOrCreateDb.value)
                 && o.parseUrl(o.getOrCreateDb.value["url"].s).Ok? && o.connect == Err(e))
    ensures var r := GetMongoDatabase(h, c, ctx, o);
      && r.reply == Failed(e)
      && KeyOf(c, ctx).value !in r.heap.caches[c.cache]
      && (o.getOrCreateDb.Err? ==> r.heap == h && r.trace == [GetOrCreate(DbType, KeyOf(c, ctx).value.classifier, c.params.base)])
  {
  }

  /** A healthy ping, or a non-authentication connection error, returns the cached handle and calls nothing else. */
  lemma HealthyHitReturnsCached(h: Heap, c: MongoDbClient, ctx: Ctx, o: Collaborators)
    requires Valid(h) && ClientIn(h, c)
    requires KeyOf(c, ctx).Some? && KeyOf(c, ctx).value in h.caches[c.cache]
    requires o.ping == PingOk || o.ping == PingConnectionError
    ensures var entry := h.caches[c.cache][KeyOf(c, ctx).value];
      GetMongoDatabase(h, c, ctx, o) == Step(h, [Ping(entry.mongoDb.client)], Returned(entry.mongoDb))
  {
  }

  /** On an authentication failure a get-existing error is returned and nothing is disconnected or changed. */
  lemma FetchErrorAbortsRotation(h: Heap, c: MongoDbClient, ctx: Ctx, o: Collaborators)
    requires Valid(h) && ClientIn(h, c)
    requires KeyOf(c, ctx).Some? && KeyOf(c, ctx).value in h.caches[c.cache]
    requires o.ping == PingAuthError && o.getConnection.Err?
    ensures var key := KeyOf(c, ctx).value;
      GetMongoDatabase(h, c, ctx, o) ==
        Step(h, [Ping(h.caches[c.cache][key].mongoDb.client), GetExisting(DbType, key.classifier, c.params.base)],
             Failed(o.getConnection.error))
  {
  }

  /** A disconnect error aborts the rotation with that error before any credential changes. */
  lemma DisconnectErrorAbortsRotation(h: Heap, c: MongoDbClient, ctx: Ctx, o: Collaborators)
    requires Valid(h) && ClientIn(h, c)
    requires KeyOf(c, ctx).Some? && KeyOf(c, ctx).value in h.caches[c.cache]
    requires o.ping == PingAuthError && o.getConnection.Ok? && WellFormed(o.getConnection.value)
    requires o.disconnect.Fail?
    ensures var key := KeyOf(c, ctx).value;
      var client := h.caches[c.cache][key].mongoDb.client;
      GetMongoDatabase(h, c, ctx, o) ==
        Step(h, [Ping(client), GetExisting(DbType, key.classifier, c.params.base), Disconnect(client)],
             Failed(o.disconnect.error))
  {
  }

  /**
   * A successful rotation: the cached credential gets the new password and
   * auth source (same username), the reconnect reads the client's options,
   * the new handle is named by the new auth database, and the cache slot
   * still holds the old handle, whose client was disconnected.
   */
  lemma SuccessfulRotation(h: Heap, c: MongoDbClient, ctx: Ctx, o: Collaborators)
    requires Valid(h) && ClientIn(h, c)
    requires KeyOf(c, ctx).Some? && KeyOf(c, ctx).value in h.caches[c.cache]
    requires o.ping == PingAuthError && o.getConnection.Ok? && WellFormed(o.getConnection.value)
    requires o.disconnect.Pass? && o.reconnect.Ok?
    ensures var key := KeyOf(c, ctx).value;
      var entry := h.caches[c.cache][key];
      var p := ToMongoConnProperties(o.getConnection.value);
      var r := GetMongoDatabase(h, c, ctx, o);
      && r.reply == Returned(Database(o.reconnect.value, p.authDbName))
      && r.trace == [Ping(entry.mongoDb.client), GetExisting(DbType, key.classifier, c.params.base),
                     Disconnect(entry.mongoDb.client), Connect(Snapshot(r.heap, c.options))]
      && r.heap.creds[entry.auth] == Credential(h.creds[entry.auth].username, p.password, p.authDbName,
                                                h.creds[entry.auth].authMechanism)
      && (forall x :: x in h.creds && x != entry.auth ==> x in r.heap.creds && r.heap.creds[x] == h.creds[x])
      && r.heap.options == h.options
      && r.heap.caches == h.caches
      && r.heap.caches[c.cache][key] == entry
  {
  }

  /**
   * When the cached credential is still the one the client's options point
   * to, the reconnect authenticates with the new password and auth source.
   */
  lemma RotationReconnectsWithNewCredential(h: Heap, c: MongoDbClient, ctx: Ctx, o: Collaborators)
    requires Valid(h) && ClientIn(h, c)
    requires KeyOf(c, ctx).Some? && KeyOf(c, ctx).value in h.caches[c.cache]
    requires c.options.Some? && h.options[c.options.value].auth == Some(h.caches[c.cache][KeyOf(c, ctx).value].auth)
    requires o.ping == PingAuthError && o.getConnection.Ok? && WellFormed(o.getConnection.value)
    requires o.disconnect.Pass?
    ensures var entry := h.caches[c.cache][KeyOf(c, ctx).value];
      var p := ToMongoConnProperties(o.getConnection.value);
      var r := GetMongoDatabase(h, c, ctx, o);
      && |r.trace| == 4
      && r.trace[3] == Connect(ConnectArgs(h.options[c.options.value].uri, h.options[c.options.value].tls,
                                           Some(h.creds[entry.auth].(password := p.password, authSource := p.authDbName))))
  {
  }

  /**
   * On a first connect with a healthy ping, the returned and cached database
   * is named by getDbName of the provisioned properties.
   */
  lemma FirstConnectUsesDbName(h: Heap, c: MongoDbClient, ctx: Ctx, o: Collaborators)
    requires Valid(h) && ClientIn(h, c)
    requires KeyOf(c, ctx).Some? && KeyOf(c, ctx).value !in h.caches[c.cache]
    requires o.getOrCreateDb.Ok? && WellFormed(o.getOrCreateDb.value)
    requires o.parseUrl(o.getOrCreateDb.value["url"].s).Ok? && o.connect.Ok? && o.ping == PingOk
    ensures var key := KeyOf(c, ctx).value;
      var r := GetMongoDatabase(h, c, ctx, o);
      var db := Database(o.connect.value, GetDbName(o.getOrCreateDb.value));
      && r.reply == Returned(db)
      && key in r.heap.caches[c.cache] && r.heap.caches[c.cache][key].mongoDb == db
      && |r.trace| == 3 && r.trace[0] == GetOrCreate(DbType, key.classifier, c.params.base)
      && r.trace[1].Connect? && r.trace[2] == Ping(o.connect.value)
  {
  }

  /**
   * A first connect writes the caller's options object: its URI becomes the
   * provisioned URL and its credential pointer is the one the cached entry
   * holds, a new credential with the provisioned username and password.
   */
  lemma FirstConnectSharesCredential(h: Heap, c: MongoDbClient, ctx: Ctx, o: Collaborators)
    requires Valid(h) && ClientIn(h, c) && c.options.Some?
    requires KeyOf(c, ctx).Some? && KeyOf(c, ctx).value !in h.caches[c.cache]
    requires o.getOrCreateDb.Ok? && WellFormed(o.getOrCreateDb.value)
    requires o.parseUrl(o.getOrCreateDb.value["url"].s).Ok? && o.connect.Ok? && o.ping == PingOk
    ensures var r := GetMongoDatabase(h, c, ctx, o);
      var m := o.getOrCreateDb.value;
      var urlDatabase := o.parseUrl(m["url"].s).value;
      && KeyOf(c, ctx).value in r.heap.caches[c.cache]
      && var entry := r.heap.caches[c.cache][KeyOf(c, ctx).value];
         && entry.auth !in h.creds
         && r.heap.options[c.options.value].auth == Some(entry.auth)
         && r.heap.options[c.options.value].uri == Some(m["url"].s)
         && r.heap.creds[entry.auth] == Credential(m["username"].s, m["password"].s,
                                                   if urlDatabase != "" then urlDatabase else m["authDbName"].s,
                                                   "SCRAM-SHA-1")
  {
  }

  /** A call that returns a database leaves its key cached. */
  lemma ReturnedMeansCached(h: Heap, c: MongoDbClient, ctx: Ctx, o: Collaborators)
    requires Valid(h) && ClientIn(h, c)
    requires GetMongoDatabase(h, c, ctx, o).reply.Returned?
    ensures KeyOf(c, ctx).Some? && KeyOf(c, ctx).value in GetMongoDatabase(h, c, ctx, o).heap.caches[c.cache]
  {
  }

  /** After a call that returned a database, the next call with the same classifier provisions nothing. */
  lemma SecondCallReusesCache(h: Heap, c: MongoDbClient, ctx: Ctx, o1: Collaborators, o2: Collaborators)
    requires Valid(h) && ClientIn(h, c)
    requires GetMongoDatabase(h, c, ctx, o1).reply.Returned?
    ensures var s1 := GetMongoDatabase(h, c, ctx, o1);
      var s2 := GetMongoDatabase(s1.heap, c, ctx, o2);
      && Provisions(s2.trace) == 0
      && Provisions(s1.trace + s2.trace) <= 1
  {
    var s1 := GetMongoDatabase(h, c, ctx, o1);
    ReturnedMeansCached(h, c, ctx, o1);
    ProvisionsPerCall(h, c, ctx, o1);
    ProvisionsPerCall(s1.heap, c, ctx, o2);
    ProvisionsAppend(s1.trace, GetMongoDatabase(s1.heap, c, ctx, o2).trace);
  }

  /** Number of get-or-create calls in a trace that provision the given classifier. */
  function ProvisionsOf(t: seq<Event>, classifier: Classifier): (n: nat)
    ensures n <= Provisions(t)
  {
    if |t| == 0 then 0
    else (if t[0].GetOrCreate? && t[0].classifier == classifier then 1 else 0) + ProvisionsOf(t[1..], classifier)
  }

  lemma {:induction false} ProvisionsOfAppend(a: seq<Event>, b: seq<Event>, classifier: Classifier)
    ensures ProvisionsOf(a + b, classifier) == ProvisionsOf(a, classifier) + ProvisionsOf(b, classifier)
    decreases |a|
  {
    if |a| > 0 {
      assert (a + b)[1..] == a[1..] + b;
      ProvisionsOfAppend(a[1..], b, classifier);
    } else {
      assert a + b == b;
    }
  }

  /**
   * A call provisions a classifier exactly when its context resolves to that
   * classifier and the key is not cached yet; calls in other contexts never do.
   */
  lemma ProvisionsOfPerCall(h: Heap, c: MongoDbClient, ctx: Ctx, o: Collaborators, classifier: Classifier)
    requires Valid(h) && ClientIn(h, c)
    ensures var r := GetMongoDatabase(h, c, ctx, o);
      ProvisionsOf(r.trace, classifier) ==
        if KeyOf(c, ctx) == Some(CacheKey(DbType, classifier)) && CacheKey(DbType, classifier) !in h.caches[c.cache] then 1 else 0
  {
    var r := GetMongoDatabase(h, c, ctx, o);
    ProvisionsPerCall(h, c, ctx, o);
    if KeyOf(c, ctx).Some? && KeyOf(c, ctx).value !in h.caches[c.cache] {
      var key := KeyOf(c, ctx).value;
      var f := CreateNewMongoDb(h, c, key.classifier, o);
      assert r.trace[0] == f.trace[0] == GetOrCreate(DbType, key.classifier, c.params.base);
      assert ProvisionsOf(r.trace[1..], classifier) == 0;
    }
  }

  /**
   * Contexts that resolve to different classifiers get different keys: a
   * second context whose key is not cached yet is provisioned on its own,
   * whatever the first call cached.
   */
  lemma DistinctClassifierIsProvisioned(h: Heap, c: MongoDbClient, ctx1: Ctx, ctx2: Ctx, o1: Collaborators, o2: Collaborators)
    requires Valid(h) && ClientIn(h, c)
    requires Classify(c.params.classifier, ctx1).Some? && Classify(c.params.classifier, ctx2).Some?
    requires Classify(c.params.classifier, ctx1) != Classify(c.params.classifier, ctx2)
    requires KeyOf(c, ctx2).value !in h.caches[c.cache]
    ensures KeyOf(c, ctx1) != KeyOf(c, ctx2)
    ensures var s1 := GetMongoDatabase(h, c, ctx1, o1);
      ProvisionsOf(GetMongoDatabase(s1.heap, c, ctx2, o2).trace, KeyOf(c, ctx2).value.classifier) == 1
  {
    var s1 := GetMongoDatabase(h, c, ctx1, o1);
    ProvisionsOfPerCall(s1.heap, c, ctx2, o2, KeyOf(c, ctx2).value.classifier);
  }

  /** One call of GetMongoDatabase: the context it runs in and its collaborators' answers. */
  datatype Call = Call(ctx: Ctx, answers: Collaborators)

  /** Consecutive calls on one client, each in its own context. */
  datatype Ran = Ran(heap: Heap, trace: seq<Event>, replies: seq<Reply<Database>>)

  function Run(h: Heap, c: MongoDbClient, calls: seq<Call>): (r: Ran)
    requires Valid(h) && ClientIn(h, c)
    ensures Valid(r.heap) && ClientIn(r.heap, c) && Extends(h, r.heap)
    ensures |r.replies| == |calls|
    ensures forall k :: k in h.caches[c.cache] ==> k in r.heap.caches[c.cache] && r.heap.caches[c.cache][k] == h.caches[c.cache][k]
    decreases |calls|
  {
    if |calls| == 0 then Ran(h, [], [])
    else
      var s := GetMongoDatabase(h, c, calls[0].ctx, calls[0].answers);
      var rest := Run(s.heap, c, calls[1..]);
      Ran(rest.heap, s.trace + rest.trace, [s.reply] + rest.replies)
  }

  /**
   * Once a classifier's key is cached, no sequence of calls in any contexts
   * provisions that classifier again, and its slot never changes.
   */
  lemma {:induction false} CachedKeyIsNeverReprovisioned(h: Heap, c: MongoDbClient, classifier: Classifier, calls: seq<Call>)
    requires Valid(h) && ClientIn(h, c)
    requires CacheKey(DbType, classifier) in h.caches[c.cache]
    ensures var r := Run(h, c, calls);
      && ProvisionsOf(r.trace, classifier) == 0
      && r.heap.caches[c.cache][CacheKey(DbType, classifier)] == h.caches[c.cache][CacheKey(DbType, classifier)]
    decreases |calls|
  {
    if |calls| > 0 {
      var s := GetMongoDatabase(h, c, calls[0].ctx, calls[0].answers);
      ProvisionsOfPerCall(h, c, calls[0].ctx, calls[0].answers, classifier);
      CachedKeyIsNeverReprovisioned(s.heap, c, classifier, calls[1..]);
      ProvisionsOfAppend(s.trace, Run(s.heap, c, calls[1..]).trace, classifier);
    }
  }

  /**
   * Sequential form of the at-most-one-provisioning guarantee: when the
   * first of any number of calls, in any contexts, returns a database, the
   * whole sequence provisions that call's classifier at most once.
   */
  lemma AtMostOneProvisioning(h: Heap, c: MongoDbClient, calls: seq<Call>)
    requires Valid(h) && ClientIn(h, c)
    requires |calls| > 0 && GetMongoDatabase(h, c, calls[0].ctx, calls[0].answers).reply.Returned?
    ensures KeyOf(c, calls[0].ctx).Some?
    ensures ProvisionsOf(Run(h, c, calls).trace, KeyOf(c, calls[0].ctx).value.classifier) <= 1
  {
    var key := KeyOf(c, calls[0].ctx).value;
    var s := GetMongoDatabase(h, c, calls[0].ctx, calls[0].answers);
    ReturnedMeansCached(h, c, calls[0].ctx, calls[0].answers);
    ProvisionsOfPerCall(h, c, calls[0].ctx, calls[0].answers, key.classifier);
    CachedKeyIsNeverReprovisioned(s.heap, c, key.classifier, calls[1..]);
    ProvisionsOfAppend(s.trace, Run(s.heap, c, calls[1..]).trace, key.classifier);
  }
}
