/**
 * The objects the client code shares by pointer: driver client options,
 * their credential record, and the DbaaS cache. Go pointers become
 * references into an explicit heap so that aliasing (the credential shared
 * between a cached entry and the options it was built from) is visible.
 */
module Objects {
  import opened Wrappers

  /**
   * A dynamic value of a Go `map[string]interface{}`. `Other` stands for a
   * value of any further type, identified by a representation in which
   * unequal Go values differ, so distinct values stay distinct.
   */
  datatype Value = Str(s: string) | Bool(b: bool) | Num(n: int) | Null | Other(repr: string)

  /** A classifier: the identity of one logical database. */
  type Classifier = map<string, Value>

  /** Errors surfaced by collaborators; they are passed through unchanged. */
  datatype Error =
    | DbaasError(httpCode: int, message: string)
    | UrlError(url: string)
    | DriverError(code: nat)

  /** A reference to a heap object (a Go pointer). */
  type Ref = nat

  /** options.Credential: what the driver authenticates with. */
  datatype Credential = Credential(username: string, password: string, authSource: string, authMechanism: string)

  /**
   * options.ClientOptions, restricted to the fields this library writes:
   * the URI applied by ApplyURI, whether a TLS config is set, and the
   * pointer to the credential installed by SetAuth. Caller-supplied tuning
   * (pool size and so on) is opaque; settings that ApplyURI derives from
   * the URL, which may overwrite it, are not modelled.
   */
  datatype ClientOptions = ClientOptions(uri: Option<string>, tls: bool, auth: Option<Ref>)

  /** `&options.ClientOptions{}`. */
  const EmptyOptions := ClientOptions(None, false, None)

  /** A *mongo.Database: the driver client it belongs to and its name. */
  datatype Database = Database(client: nat, name: string)

  /** cachedMongoDatabase: the handle plus a pointer to the credential it was built with. */
  datatype CachedMongoDatabase = CachedMongoDatabase(mongoDb: Database, auth: Ref)

  /** cache.Key: database kind plus classifier; map equality makes it order-independent. */
  datatype CacheKey = CacheKey(dbType: string, classifier: Classifier)

  type Cache = map<CacheKey, CachedMongoDatabase>

  /** Every pointer-reachable object, with the next free reference. */
  datatype Heap = Heap(
    options: map<Ref, ClientOptions>,
    creds: map<Ref, Credential>,
    caches: map<Ref, Cache>,
    next: Ref)

  const EmptyHeap := Heap(map[], map[], map[], 0)

  /** No reference is at or beyond `next`, and no credential pointer dangles. */
  ghost predicate Valid(h: Heap) {
    && (forall r :: r in h.options ==> r < h.next)
    && (forall r :: r in h.creds ==> r < h.next)
    && (forall r :: r in h.caches ==> r < h.next)
    && (forall r :: r in h.options && h.options[r].auth.Some? ==> h.options[r].auth.value in h.creds)
    && (forall r, k :: r in h.caches && k in h.caches[r] ==> h.caches[r][k].auth in h.creds)
  }

  /** `h'` only allocated: every object of `h` still exists. */
  ghost predicate Extends(h: Heap, h': Heap) {
    && h.next <= h'.next
    && h.options.Keys <= h'.options.Keys
    && h.creds.Keys <= h'.creds.Keys
    && h.caches.Keys <= h'.caches.Keys
  }

  /** A nil or allocated options pointer. */
  ghost predicate OptionsIn(h: Heap, o: Option<Ref>) {
    o.Some? ==> o.value in h.options
  }

  /** What mongo.Connect sees of an options object at the moment it is called. */
  datatype ConnectArgs = ConnectArgs(uri: Option<string>, tls: bool, credential: Option<Credential>)

  /** The options a connect call reads; nil options connect with the driver defaults. */
  function Snapshot(h: Heap, o: Option<Ref>): (args: ConnectArgs)
    requires Valid(h) && OptionsIn(h, o)
    ensures o.None? ==> args == ConnectArgs(None, false, None)
    ensures o.Some? ==> args.uri == h.options[o.value].uri && args.tls == h.options[o.value].tls
    ensures o.Some? ==> (args.credential.Some? <==> h.options[o.value].auth.Some?)
    ensures o.Some? && h.options[o.value].auth.Some? ==> args.credential == Some(h.creds[h.options[o.value].auth.value])
  {
    if o.None? then ConnectArgs(None, false, None)
    else
      var opts := h.options[o.value];
      ConnectArgs(opts.uri, opts.tls, if opts.auth.Some? then Some(h.creds[opts.auth.value]) else None)
  }
}
