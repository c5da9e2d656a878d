/**
 * MongoDbClientImpl (mongo_db_client.go): building driver options from
 * DbaaS connection properties, the cached get-or-create of a database
 * handle, and password rotation after an authentication failure.
 *
 * Every collaborator (DbaaS, the driver, the URL parser) is an input of the
 * call; the model returns the heap after the call, the sequence of
 * collaborator calls made, and what GetMongoDatabase returns.
 *
 * The DbaaS cache is external. Its assumed contract: on a hit it returns
 * the stored value without calling the factory; on a miss it calls the
 * factory once and stores the value only when the factory succeeds.
 */
module DbClient {
  import opened Wrappers
  import opened Objects
  import opened ConnProperties
  import opened Classifiers

  /** The only authentication mechanism this library configures. */
  const AuthMechanism := "SCRAM-SHA-1"

  /** MongoDbClientImpl: options pointer (nil allowed), DbaaS client, cache pointer, params. */
  datatype MongoDbClient = MongoDbClient(options: Option<Ref>, dbaasClient: nat, cache: Ref, params: DbParams)

  ghost predicate ClientIn(h: Heap, c: MongoDbClient) {
    OptionsIn(h, c.options) && c.cache in h.caches
  }

  /**
   * What Ping returns: success, a topology.ConnectionError wrapping an
   * auth.Error, a ConnectionError wrapping anything else, or an error of
   * another type.
   */
  datatype PingResult = PingOk | PingAuthError | PingConnectionError | PingOtherError

  /** The answers the collaborators give during one GetMongoDatabase call. */
  datatype Collaborators = Collaborators(
    getOrCreateDb: Result<PropertyMap, Error>,
    parseUrl: string -> Result<string, Error>,
    connect: Result<nat, Error>,
    ping: PingResult,
    getConnection: Result<PropertyMap, Error>,
    disconnect: Outcome<Error>,
    reconnect: Result<nat, Error>)

  /** The observable collaborator calls. */
  datatype Event =
    | GetOrCreate(dbType: string, classifier: Classifier, params: BaseDbParams)
    | Connect(args: ConnectArgs)
    | Ping(client: nat)
    | GetExisting(dbType: string, classifier: Classifier, params: BaseDbParams)
    | Disconnect(client: nat)

  /** A Go call's ending: a value, an error, or a panic. */
  datatype Reply<+T> = Returned(value: T) | Failed(error: Error) | Panicked

  /** The result of buildMongoOptions: the heap it leaves and the options pointer or error. */
  datatype Built = Built(heap: Heap, opts: Result<Ref, Error>)

  /** The options object buildMongoOptions starts from: the caller's, or a new empty one. */
  ghost function StartOptions(h: Heap, userOptions: Option<Ref>): ClientOptions
    requires OptionsIn(h, userOptions)
  {
    if userOptions.Some? then h.options[userOptions.value] else EmptyOptions
  }

  /** Every credential that existed before still exists with the same contents. */
  ghost predicate CredsKept(h: Heap, h': Heap) {
    forall r :: r in h.creds ==> r in h'.creds && h'.creds[r] == h.creds[r]
  }

  /** buildMongoOptions. */
  function BuildMongoOptions(h: Heap, userOptions: Option<Ref>, props: PropertyMap,
                             parseUrl: string -> Result<string, Error>): (b: Built)
    requires Valid(h) && OptionsIn(h, userOptions) && WellFormed(props)
    ensures Valid(b.heap) && Extends(h, b.heap) && CredsKept(h, b.heap)
    ensures b.heap.caches == h.caches
    ensures forall r :: r in h.options && userOptions != Some(r) ==> b.heap.options[r] == h.options[r]
    // an unparsable URL is an error, returned as the parser gave it
    ensures b.opts.Err? <==> parseUrl(props["url"].s).Err?
    ensures b.opts.Err? ==> b.opts.error == parseUrl(props["url"].s).error
    // the caller's options object is the one configured, else a new one
    ensures b.opts.Ok? ==> b.opts.value in b.heap.options
    ensures b.opts.Ok? && userOptions.Some? ==> b.opts.value == userOptions.value
    ensures b.opts.Ok? && userOptions.None? ==> b.opts.value !in h.options
    // TLS is switched on by a boolean true "tls" and never switched off
    ensures b.opts.Ok? ==> b.heap.options[b.opts.value].tls == (StartOptions(h, userOptions).tls || TlsRequested(props))
    ensures b.opts.Err? && userOptions.Some? ==>
      b.heap.options[userOptions.value] == h.options[userOptions.value].(tls := h.options[userOptions.value].tls || TlsRequested(props))
    // the URI and a freshly allocated credential are installed
    ensures b.opts.Ok? ==>
      var o := b.heap.options[b.opts.value];
      && o.uri == Some(props["url"].s)
      && o.auth.Some? && o.auth.value !in h.creds
      && var cred := b.heap.creds[o.auth.value];
         && cred.username == props["username"].s
         && cred.password == props["password"].s
         && cred.authMechanism == "SCRAM-SHA-1"
         && (parseUrl(props["url"].s).value != "" ==> cred.authSource == parseUrl(props["url"].s).value)
         && (parseUrl(props["url"].s).value == "" ==> cred.authSource == props["authDbName"].s)
  {
    var p := ToMongoConnProperties(props);
    var (h1, o) :=
      if userOptions.Some? then (h, userOptions.value)
      else (h.(options := h.options[h.next := EmptyOptions], next := h.next + 1), h.next);
    var h2 := if TlsRequested(props) then h1.(options := h1.options[o := h1.options[o].(tls := true)]) else h1;
    match parseUrl(p.url)
    case Err(e) => Built(h2, Err(e))
    case Ok(urlDatabase) =>
      var authDbName := if urlDatabase == "" then p.authDbName else urlDatabase;
      var cred := Credential(p.username, p.password, authDbName, AuthMechanism);
      var r := h2.next;
      var h3 := h2.(creds := h2.creds[r := cred], next := r + 1);
      Built(h3.(options := h3.options[o := h3.options[o].(uri := Some(p.url), auth := Some(r))]), Ok(o))
  }

  /** What the cache factory leaves behind: the heap, its calls, and the entry or failure. */
  datatype Created = Created(heap: Heap, trace: seq<Event>, result: Reply<CachedMongoDatabase>)

  /** createNewMongoDb: the factory handed to the cache on a miss. */
  function CreateNewMongoDb(h: Heap, c: MongoDbClient, classifier: Classifier, o: Collaborators): (r: Created)
    requires Valid(h) && ClientIn(h, c)
    ensures Valid(r.heap) && Extends(h, r.heap) && CredsKept(h, r.heap) && r.heap.caches == h.caches
    ensures 1 <= |r.trace| <= 2 && r.trace[0] == GetOrCreate(DbType, classifier, c.params.base)
    ensures |r.trace| == 2 ==> r.trace[1].Connect?
    // a provisioning error is returned unchanged, before anything else happens
    ensures o.getOrCreateDb.Err? ==> r == Created(h, [GetOrCreate(DbType, classifier, c.params.base)], Failed(o.getOrCreateDb.error))
    ensures r.result.Panicked? <==> o.getOrCreateDb.Ok? && !WellFormed(o.getOrCreateDb.value)
    ensures r.result.Failed? ==>
      || o.getOrCreateDb == Err(r.result.error)
      || (o.getOrCreateDb.Ok? && WellFormed(o.getOrCreateDb.value)
          && o.parseUrl(o.getOrCreateDb.value["url"].s) == Err(r.result.error))
      || o.connect == Err(r.result.error)
    // on success: connected once, named by getDbName, credential shared with the options
    ensures r.result.Returned? ==>
      && o.getOrCreateDb.Ok? && WellFormed(o.getOrCreateDb.value)
      && o.connect == Ok(r.result.value.mongoDb.client)
      && r.result.value.mongoDb.name == GetDbName(o.getOrCreateDb.value)
      && r.result.value.auth in r.heap.creds && r.result.value.auth !in h.creds
      && r.heap.creds[r.result.value.auth].username == o.getOrCreateDb.value["username"].s
      && r.heap.creds[r.result.value.auth].password == o.getOrCreateDb.value["password"].s
      && r.heap.creds[r.result.value.auth].authMechanism == AuthMechanism
      && |r.trace| == 2 && r.trace[1].args.credential == Some(r.heap.creds[r.result.value.auth])
      && (c.options.Some? ==> r.heap.options[c.options.value].auth == Some(r.result.value.auth)
                              && r.heap.options[c.options.value].uri == Some(o.getOrCreateDb.value["url"].s))
      && var urlDatabase := o.parseUrl(o.getOrCreateDb.value["url"].s);
         && urlDatabase.Ok?
         && r.heap.creds[r.result.value.auth].authSource
              == (if urlDatabase.value != "" then urlDatabase.value else o.getOrCreateDb.value["authDbName"].s)
  {
    var ev := [GetOrCreate(DbType, classifier, c.params.base)];
    match o.getOrCreateDb
    case Err(e) => Created(h, ev, Failed(e))
    case Ok(props) =>
      if !WellFormed(props) then Created(h, ev, Panicked)
      else
        var b := BuildMongoOptions(h, c.options, props, o.parseUrl);
        match b.opts
        case Err(e) => Created(b.heap, ev, Failed(e))
        case Ok(opts) =>
          var args := Snapshot(b.heap, Some(opts));
          match o.connect
          case Err(e) => Created(b.heap, ev + [Connect(args)], Failed(e))
          case Ok(client) =>
            var entry := CachedMongoDatabase(Database(client, GetDbName(props)), b.heap.options[opts].auth.value);
            Created(b.heap, ev + [Connect(args)], Returned(entry))
  }

  /** isPasswordValid: None where the unchecked type assertion panics. */
  function IsPasswordValid(ping: PingResult): (valid: Option<bool>)
    ensures valid == Some(false) <==> ping == PingAuthError
    ensures valid.None? <==> ping == PingOtherError
  {
    match ping
    case PingOk => Some(true)
    case PingConnectionError => Some(true)
    case PingAuthError => Some(false)
    case PingOtherError => None
  }

  /** getNewConnectionProperties: the get-existing call and the decoded properties. */
  function GetNewConnectionProperties(c: MongoDbClient, classifier: Classifier, o: Collaborators):
    (r: (seq<Event>, Reply<MongoConnProperties>))
    ensures r.0 == [GetExisting(DbType, classifier, c.params.base)]
    ensures o.getConnection.Err? ==> r.1 == Failed(o.getConnection.error)
    ensures r.1.Panicked? <==> o.getConnection.Ok? && !WellFormed(o.getConnection.value)
    ensures r.1.Returned? ==> o.getConnection.Ok? && WellFormed(o.getConnection.value)
                              && r.1.value == ToMongoConnProperties(o.getConnection.value)
  {
    var ev := [GetExisting(DbType, classifier, c.params.base)];
    match o.getConnection
    case Err(e) => (ev, Failed(e))
    case Ok(m) => if WellFormed(m) then (ev, Returned(ToMongoConnProperties(m))) else (ev, Panicked)
  }

  /** The heap and calls of updatePassword, and the updated local copy of the entry. */
  datatype Updated = Updated(heap: Heap, trace: seq<Event>, result: Result<CachedMongoDatabase, Error>)

  /**
   * updatePassword: disconnect, rewrite the shared credential, reconnect
   * with the client's options. It updates a local copy of the entry; the
   * cache is not written.
   */
  function UpdatePassword(h: Heap, c: MongoDbClient, entry: CachedMongoDatabase, p: MongoConnProperties,
                          o: Collaborators): (r: Updated)
    requires Valid(h) && ClientIn(h, c) && entry.auth in h.creds
    ensures Valid(r.heap) && Extends(h, r.heap) && r.heap.caches == h.caches && r.heap.options == h.options
    ensures 1 <= |r.trace| <= 2 && r.trace[0] == Disconnect(entry.mongoDb.client)
    // a failed disconnect aborts before any credential is touched
    ensures o.disconnect.Fail? ==> r == Updated(h, [Disconnect(entry.mongoDb.client)], Err(o.disconnect.error))
    // otherwise only the password and auth source of the entry's credential change
    ensures o.disconnect.Pass? ==>
      && r.heap.creds.Keys == h.creds.Keys
      && (forall x :: x in h.creds && x != entry.auth ==> r.heap.creds[x] == h.creds[x])
      && r.heap.creds[entry.auth].username == h.creds[entry.auth].username
      && r.heap.creds[entry.auth].authMechanism == h.creds[entry.auth].authMechanism
      && r.heap.creds[entry.auth].password == p.password
      && r.heap.creds[entry.auth].authSource == p.authDbName
      && r.trace == [Disconnect(entry.mongoDb.client), Connect(Snapshot(r.heap, c.options))]
    ensures r.result.Err? ==> o.disconnect == Fail(r.result.error) || o.reconnect == Err(r.result.error)
    // the reconnected database is named by the new auth database
    ensures r.result.Ok? ==>
      && o.disconnect.Pass? && o.reconnect.Ok?
      && r.result.value == CachedMongoDatabase(Database(o.reconnect.value, p.authDbName), entry.auth)
  {
    var ev := [Disconnect(entry.mongoDb.client)];
    match o.disconnect
    case Fail(e) => Updated(h, ev, Err(e))
    case Pass =>
      var cred := h.creds[entry.auth];
      var h1 := h.(creds := h.creds[entry.auth := cred.(password := p.password, authSource := p.authDbName)]);
      var ev1 := ev + [Connect(Snapshot(h1, c.options))];
      match o.reconnect
      case Err(e) => Updated(h1, ev1, Err(e))
      case Ok(client) => Updated(h1, ev1, Ok(entry.(mongoDb := Database(client, p.authDbName))))
  }

  /** The heap after a call, the collaborator calls it made, and what it returned. */
  datatype Step = Step(heap: Heap, trace: seq<Event>, reply: Reply<Database>)

  /**
   * The part of GetMongoDatabase after the cache lookup: probe the entry
   * and, on an authentication failure, fetch the current properties and
   * rotate the password. The cache itself is never written here.
   */
  function UseCachedMongoDb(h: Heap, c: MongoDbClient, classifier: Classifier, entry: CachedMongoDatabase,
                            o: Collaborators): (r: Step)
    requires Valid(h) && ClientIn(h, c) && entry.auth in h.creds
    ensures Valid(r.heap) && Extends(h, r.heap) && r.heap.caches == h.caches && r.heap.options == h.options
    ensures 1 <= |r.trace| <= 4 && r.trace[0] == Ping(entry.mongoDb.client)
    ensures forall i :: 0 <= i < |r.trace| ==> !r.trace[i].GetOrCreate?
    // a healthy ping, or a connection error that is not an auth error, keeps the handle
    ensures o.ping in {PingOk, PingConnectionError} ==>
      r == Step(h, [Ping(entry.mongoDb.client)], Returned(entry.mongoDb))
    // any other error type fails the unchecked type assertion
    ensures o.ping == PingOtherError ==> r == Step(h, [Ping(entry.mongoDb.client)], Panicked)
    // an authentication failure makes exactly one get-existing call, right after the ping
    ensures o.ping == PingAuthError ==>
      && |r.trace| >= 2 && r.trace[1] == GetExisting(DbType, classifier, c.params.base)
      && (forall i :: 2 <= i < |r.trace| ==> r.trace[i].Disconnect? || r.trace[i].Connect?)
    ensures o.ping == PingAuthError && o.getConnection.Err? ==>
      r == Step(h, [Ping(entry.mongoDb.client), GetExisting(DbType, classifier, c.params.base)],
                Failed(o.getConnection.error))
    ensures o.ping == PingAuthError && o.getConnection.Ok? && !WellFormed(o.getConnection.value) ==>
      r == Step(h, [Ping(entry.mongoDb.client), GetExisting(DbType, classifier, c.params.base)], Panicked)
    // rotation: disconnect first; a disconnect error aborts with nothing changed
    ensures o.ping == PingAuthError && o.getConnection.Ok? && WellFormed(o.getConnection.value) ==>
      var p := ToMongoConnProperties(o.getConnection.value);
      && |r.trace| >= 3 && r.trace[2] == Disconnect(entry.mongoDb.client)
      && (o.disconnect.Fail? ==> r.heap == h && |r.trace| == 3 && r.reply == Failed(o.disconnect.error))
      && (o.disconnect.Pass? ==>
            && r.trace[3..] == [Connect(Snapshot(r.heap, c.options))]
            && r.heap.creds == h.creds[entry.auth := h.creds[entry.auth].(password := p.password, authSource := p.authDbName)])
      && (o.disconnect.Pass? && o.reconnect.Err? ==> r.reply == Failed(o.reconnect.error))
      && (o.disconnect.Pass? && o.reconnect.Ok? ==> r.reply == Returned(Database(o.reconnect.value, p.authDbName)))
  {
    var ev := [Ping(entry.mongoDb.client)];
    match IsPasswordValid(o.ping)
    case None => Step(h, ev, Panicked)
    case Some(true) => Step(h, ev, Returned(entry.mongoDb))
    case Some(false) =>
      var (ev1, fetched) := GetNewConnectionProperties(c, classifier, o);
      match fetched
      case Panicked => Step(h, ev + ev1, Panicked)
      case Failed(e) => Step(h, ev + ev1, Failed(e))
      case Returned(p) =>
        var u := UpdatePassword(h, c, entry, p, o);
        match u.result
        case Err(e) => Step(u.heap, ev + ev1 + u.trace, Failed(e))
        case Ok(local) => Step(u.heap, ev + ev1 + u.trace, Returned(local.mongoDb))
  }

  /** The cache key GetMongoDatabase uses, or None where resolving the classifier panics. */
  function KeyOf(c: MongoDbClient, ctx: Ctx): (k: Option<CacheKey>)
    ensures k.Some? <==> Classify(c.params.classifier, ctx).Some?
    ensures k.Some? ==> k.value.dbType == "mongodb" && k.value.classifier == Classify(c.params.classifier, ctx).value
  {
    match Classify(c.params.classifier, ctx)
    case None => None
    case Some(classifier) => Some(CacheKey(DbType, classifier))
  }

  /** The cache's store on a factory success: the slot of `key` in cache `cr` now holds `entry`. */
  function StoreInCache(h: Heap, cr: Ref, key: CacheKey, entry: CachedMongoDatabase): (h': Heap)
    requires Valid(h) && cr in h.caches && entry.auth in h.creds
    ensures Valid(h') && Extends(h, h') && h'.options == h.options && h'.creds == h.creds
    ensures h'.caches.Keys == h.caches.Keys && key in h'.caches[cr] && h'.caches[cr][key] == entry
    ensures forall x :: x in h.caches && x != cr ==> h'.caches[x] == h.caches[x]
    ensures forall k :: k in h.caches[cr] && k != key ==> k in h'.caches[cr] && h'.caches[cr][k] == h.caches[cr][k]
    ensures h'.caches[cr].Keys == h.caches[cr].Keys + {key}
  {
    h.(caches := h.caches[cr := h.caches[cr][key := entry]])
  }

  /** GetMongoDatabase. */
  function GetMongoDatabase(h: Heap, c: MongoDbClient, ctx: Ctx, o: Collaborators): (r: Step)
    requires Valid(h) && ClientIn(h, c)
    ensures Valid(r.heap) && Extends(h, r.heap) && ClientIn(r.heap, c)
    ensures KeyOf(c, ctx).None? ==> r == Step(h, [], Panicked)
    // only this client's cache, and in it only the requested key, can change
    ensures forall cr :: cr in h.caches && cr != c.cache ==> r.heap.caches[cr] == h.caches[cr]
    ensures forall k :: k in h.caches[c.cache] ==> k in r.heap.caches[c.cache] && r.heap.caches[c.cache][k] == h.caches[c.cache][k]
    ensures forall k :: k in r.heap.caches[c.cache] && k !in h.caches[c.cache] ==> KeyOf(c, ctx) == Some(k)
    // a hit calls no factory: the stored entry is probed and the slot is left as it was
    ensures KeyOf(c, ctx).Some? && KeyOf(c, ctx).value in h.caches[c.cache] ==>
      && r.heap.caches == h.caches
      && r == UseCachedMongoDb(h, c, KeyOf(c, ctx).value.classifier, h.caches[c.cache][KeyOf(c, ctx).value], o)
    // a miss runs the factory once; the key is stored exactly when it succeeds
    ensures KeyOf(c, ctx).Some? && KeyOf(c, ctx).value !in h.caches[c.cache] ==>
      var key := KeyOf(c, ctx).value;
      var f := CreateNewMongoDb(h, c, key.classifier, o);
      && |f.trace| <= |r.trace| && r.trace[..|f.trace|] == f.trace
      && (key in r.heap.caches[c.cache] <==> f.result.Returned?)
      && (f.result.Failed? ==> r == Step(f.heap, f.trace, Failed(f.result.error)))
      && (f.result.Panicked? ==> r == Step(f.heap, f.trace, Panicked))
      && (f.result.Returned? ==>
            && r.heap.caches[c.cache][key] == f.result.value
            && var h1 := StoreInCache(f.heap, c.cache, key, f.result.value);
               var u := UseCachedMongoDb(h1, c, key.classifier, f.result.value, o);
               r == Step(u.heap, f.trace + u.trace, u.reply))
  {
    match KeyOf(c, ctx)
    case None => Step(h, [], Panicked)
    case Some(key) =>
      var cached := h.caches[c.cache];
      if key in cached then UseCachedMongoDb(h, c, key.classifier, cached[key], o)
      else
        var f := CreateNewMongoDb(h, c, key.classifier, o);
        match f.result
        case Panicked => Step(f.heap, f.trace, Panicked)
        case Failed(e) => Step(f.heap, f.trace, Failed(e))
        case Returned(entry) =>
          var h1 := StoreInCache(f.heap, c.cache, key, entry);
          var u := UseCachedMongoDb(h1, c, key.classifier, entry, o);
          Step(u.heap, f.trace + u.trace, u.reply)
  }
}
