# DbaaS MongoDB client: a Dafny model

This project models the core of a Go library that gives application code MongoDB
database handles for logical databases provisioned by a DbaaS control plane. The
modelled core has four parts:

- decoding DbaaS connection properties into a `MongoConnProperties` record;
- building the driver's client options and SCRAM-SHA-1 credential;
- `GetMongoDatabase`: a cached get-or-create of a driver handle per
  `(DB_TYPE, classifier)` key, which rotates the password when a ping reports an
  authentication failure;
- defaulting of database parameters and classifiers for service and tenant
  databases, which share one cache per client.

Modules follow the source files:

- `Objects` (objects.dfy) holds the heap of pointer-shared objects: client
  options, credentials and caches.
- `ConnProperties` (conn_properties.dfy) holds property decoding from
  `mongo_database.go` and the `model` package.
- `Classifiers` (classifiers.dfy) holds the classifier functions and `DbParams`.
- `DbClient` (db_client.dfy) models `mongo_db_client.go`.
- `DbClientProperties` (db_client_properties.dfy) holds properties over one or
  many calls.
- `MongoDatabases` (database.dfy) models `mongo_database.go`.
- `MongoClient` (mongo_client.dfy) models `mongo_client.go`.
- `Findings` (findings.dfy) holds the findings below.

`Wrappers` (wrappers.dfy) holds Option and Result.

Go pointers become references into an explicit `Heap`, so the aliasing the code
relies on is visible: the credential is shared between a cached entry and the
options object it was built from, and one cache is shared by every database of
a client. `Valid(h)` says no reference dangles, and every operation preserves it.

Collaborators are inputs of each call (`Collaborators`):

- the DbaaS get-or-create and get-existing answers;
- the URL parser;
- the driver's connect, ping, disconnect and reconnect results.

A call returns three things: the heap after the call, the trace of collaborator
calls (`GetOrCreate`, `Connect`, `Ping`, `GetExisting`, `Disconnect`), and a
`Reply` (a value, an error, or a panic).

The DbaaS cache implementation is external. The model assumes this contract for
it: a hit returns the stored value without calling the factory; a miss calls
the factory once and stores the value only when the factory succeeds
(`StoreInCache`). Its key constructor `cache.NewKey` is external too. The model
assumes that two keys are equal exactly when their database kinds and
classifier maps are equal, whatever order the pairs were inserted in.
`CacheKey` states that assumption; it is not proved about `cache.NewKey`.

Classifier and property values are dynamic Go values (`Value`): strings,
booleans, integers, nil, and any other value identified by a representation
in which unequal values differ. Classifiers with distinct values therefore
give distinct keys.

## Model

| member | source | states |
|---|---|---|
| ConnProperties.GetDbName | mongo_database.go:70-75 | A present, non-empty `dbName` is the target database; otherwise it is `authDbName`. |
| ConnProperties.ToMongoConnProperties | mongo_database.go:60-68 | url, username, password and authDbName are copied verbatim. DbName is getDbName of the same map. A decoded DbName is empty only when authDbName is. |
| ConnProperties.DecodeEncode | model/mongo_connection_properies.go:4-10 | Decoding the wire shape of a record gives the record back exactly when its dbName is non-empty or its authDbName is empty (both directions). |
| ConnProperties.DecodeIsNormal | mongo_database.go:60-75 | Every decoded record survives encode-then-decode unchanged. |
| ConnProperties.DecodeIgnoresOtherKeys | mongo_database.go:60-68 | Keys other than the five the decoder reads (such as "tls") change nothing in the record. |
| Classifiers.ServiceClassifier | mongo_client.go:54-58 | The result is the base service classifier plus `dbClassifier = "default"`. Its keys are exactly the base keys plus dbClassifier, and other values are unchanged. |
| Classifiers.TenantClassifier | mongo_client.go:60-64 | The same over the base tenant classifier. It is undefined (a panic) exactly when the context has no tenant. |
| Classifiers.ServiceClassifierOfConfiguredService | mongo_client_test.go:94-105 | With the tested configuration, the service classifier is exactly microserviceName, namespace, scope and dbClassifier. |
| Classifiers.ServiceClassifierIdempotent | mongo_client.go:54-58 | Applying the default discriminator to a classifier that already has it changes nothing. |
| DbClient.BuildMongoOptions | mongo_db_client.go:122-148 | An unparsable URL returns the parser's error. Otherwise the caller's options object, or a new one, gets the URL and a new credential: username and password from the properties, mechanism SCRAM-SHA-1, and auth source = the URL's database if non-empty, else authDbName. TLS is switched on iff "tls" is boolean true, and never off. Nothing else on the heap changes. |
| DbClient.CreateNewMongoDb | mongo_db_client.go:61-85 | Exactly one get-or-create with DB_TYPE, the classifier and the base params. Its error, or the URL or connect error, is returned unchanged. On success the entry names the database by getDbName and holds the credential the caller's options point to. |
| DbClient.IsPasswordValid | mongo_db_client.go:114-120 | A ping counts as invalid iff it is an authentication failure. It panics iff the error is not a ConnectionError. |
| DbClient.GetNewConnectionProperties | mongo_db_client.go:104-112 | One get-existing call. Its error is passed through; otherwise the decoded properties are returned, or a panic if the map is malformed. |
| DbClient.UpdatePassword | mongo_db_client.go:87-102 | Disconnect comes first. A disconnect error returns with the heap untouched. Otherwise only the entry credential's password and auth source change, the reconnect reads the client's options, and the new handle is named by the new authDbName. |
| DbClient.UseCachedMongoDb | mongo_db_client.go:44-58 | Ping first. Ok or a non-auth ConnectionError returns the cached handle with no other call. An auth failure makes exactly one get-existing and then the disconnect/reconnect. The cache is never written. |
| DbClient.KeyOf | mongo_db_client.go:37-38 | The key is ("mongodb", params.Classifier(ctx)). It is undefined when classifier resolution panics. |
| DbClient.StoreInCache | mongo_db_client.go:40 | On a miss, the slot of the key holds the factory's entry and every other slot is unchanged. |
| DbClient.GetMongoDatabase | mongo_db_client.go:36-59 | Only the requested key of this client's cache can change, and an existing slot is never rewritten. A hit calls no factory. A miss runs the factory once and stores the key iff the factory succeeded; a factory error is returned. The heap stays valid. |
| DbClientProperties.ProvisionsPerCall | mongo_db_client.go:40 | One get-or-create on a miss, none on a hit. |
| DbClientProperties.ProvisionsOfPerCall | mongo_db_client.go:37-40 | A call provisions a classifier exactly when its context resolves to that classifier and the key is not cached; a call in any other context never provisions it. |
| DbClientProperties.DistinctClassifierIsProvisioned | mongo_db_client.go:37-40 | Contexts that resolve to different classifiers get different keys. After a call in one context, a call in the other still provisions its own classifier once when its key was not cached. |
| DbClientProperties.FactoryErrorIsReturned | mongo_db_client.go:61-77 | A get-or-create, URL or connect error is what GetMongoDatabase returns, and the key stays uncached. |
| DbClientProperties.HealthyHitReturnsCached | mongo_db_client.go:114-120 | A healthy ping, or a non-auth connection error, returns the cached handle after a single ping. |
| DbClientProperties.FetchErrorAbortsRotation | mongo_db_client.go:46-51 | After an auth failure, a get-existing error is returned after exactly [Ping, GetExisting]. Nothing is disconnected or changed. |
| DbClientProperties.DisconnectErrorAbortsRotation | mongo_db_client.go:88-92 | A disconnect error is returned, the credential is unchanged, and there is no reconnect. |
| DbClientProperties.SuccessfulRotation | mongo_db_client.go:93-100 | Password and auth source come from the new properties and the username is unchanged. The reconnect reads the client's options. The result is named by the new authDbName. The cache slot keeps the old, disconnected handle. |
| DbClientProperties.RotationReconnectsWithNewCredential | mongo_db_client.go:93-95 | When the entry's credential is the one the options point to, the reconnect authenticates with the new password and auth source. |
| DbClientProperties.FirstConnectUsesDbName | mongo_db_client.go:78-81 | On first connect, the returned and cached database is named getDbName of the provisioned properties. |
| DbClientProperties.FirstConnectSharesCredential | mongo_db_client.go:68-80 | After first connect, the options' URI is the provisioned URL. The options and the cached entry point to the same new credential. |
| DbClientProperties.ReturnedMeansCached | mongo_db_client.go:40-58 | A call that returns a database leaves its key cached. |
| DbClientProperties.SecondCallReusesCache | mongo_db_client_test.go:132-140 | After a call that returned a database, the next call makes no get-or-create; the two together make at most one. |
| DbClientProperties.Run | mongo_db_client.go:36-59 | Across any sequence of calls on one client, each in its own context, the heap stays valid and cached slots never change. |
| DbClientProperties.CachedKeyIsNeverReprovisioned | mongo_db_client.go:40 | Once a classifier's key is cached, no sequence of later calls in any contexts provisions that classifier again, and its slot keeps its entry. |
| DbClientProperties.AtMostOneProvisioning | mongo_db_client.go:40 | If the first of any number of calls, in any contexts, returns a database, the whole sequence provisions that call's classifier at most once. |
| MongoDatabases.GetMongoDbClient | mongo_database.go:24-34 | Uses the first supplied options, else a newly allocated empty options object. It shares the database's cache, params and pool, and the client it builds is valid to call. |
| MongoDatabases.GetConnectionProperties | mongo_database.go:37-47 | One get-or-create call. Its error is returned unchanged; otherwise the decoded properties. |
| MongoDatabases.FindConnectionProperties | mongo_database.go:49-58 | One get-existing call and never get-or-create. Its error is returned unchanged; otherwise the decoded properties. |
| MongoDatabases.LookupErrorsKeepStatus | mongo_database_test.go:94-104 | A DbaaS error (for example 404) reaches the caller of either lookup with its status. |
| MongoDatabases.LookupsAgree | mongo_database.go:37-58 | Given the same answer, both lookups return the same thing. They differ only in get-or-create versus get-existing. |
| MongoDatabases.LookupOfStubAnswer | mongo_database_test.go:85-92 | The tested answer decodes to username service_test and password qwerty127, with DbName falling back to authDbName. |
| MongoClient.NewClient | mongo_client.go:28-36 | A client owns a newly allocated empty cache; nothing else changes. |
| MongoClient.BuildServiceDbParams | mongo_client.go:66-75 | Only the first params value is used, kept as-is (Role included) when its classifier is set. A nil classifier becomes ServiceClassifier with other fields unchanged. No params gives the zero params with ServiceClassifier. |
| MongoClient.BuildTenantDbParams | mongo_client.go:77-86 | The same with TenantClassifier as the default. |
| MongoClient.ServiceDatabase | mongo_client.go:38-44 | Uses the client's cache and pool with the defaulted service params. |
| MongoClient.TenantDatabase | mongo_client.go:46-52 | Uses the client's cache and pool with the defaulted tenant params. |
| MongoClient.DefaultClassifiers | mongo_client_test.go:35-45 | Without params, a service database resolves ServiceClassifier and a tenant database resolves TenantClassifier. |
| MongoClient.ParamsDefaultingIsStable | mongo_client.go:66-86 | Params after the first are ignored, and defaulting an already defaulted value changes nothing. |
| MongoClient.DatabasesShareCache | mongo_client.go:38-52 | Every service and tenant database of one client uses that client's single cache. |

## Where the code departs from the evident intent

The model follows the code in each case below.

- Ping errors. A ping error that is not an authentication failure would be
  expected to reach the caller. In the code, a `topology.ConnectionError` that does
  not wrap an `auth.Error` counts as a valid password, and the cached handle is
  returned with no error. Any other error type fails the unchecked type
  assertion `err.(topology.ConnectionError)` and panics (`PingOtherError` leads
  to `Panicked`).
- Cache replacement. A rotation would be expected to replace the cached entry.
  The code rotates a local copy, so the cache slot keeps the old, disconnected
  handle (see Findings).
- Error wrapping. Errors would be expected to carry the database kind and the
  classifier. The code returns collaborator errors unchanged, and the model
  does the same.
- Failed reconnect. When the reconnect fails, the credential has already been
  rewritten. The entry is then left with the old handle and the new password.

## Left out

- The DbaaS cache implementation, its per-key locking and concurrent callers.
  The cache is external. Only its hit/miss contract is modelled, as an
  assumption, and calls are sequential.
- The Mongo driver is not modelled: connect, ping, disconnect, `Client().Database`
  and the classification of auth errors. These are answers supplied to the call.
  Connect records only the URI string, the TLS flag and the credential it reads.
  The other settings that `ApplyURI` derives from the URI are not modelled.
- `connstring.ParseAndValidate` is an abstract function from URL to the URL's
  database or an error. `utils.GetTlsConfig` is reduced to a boolean.
- The DbaaS HTTP client and pool (JSON, HTTP status handling) are left out.
  Their answers are inputs, and their errors are opaque values that are passed
  through.
- `BaseServiceClassifier`, `BaseTenantClassifier` and context propagation are
  left out. A context is represented by what those two functions return in it.
  A caller-supplied classifier function is assumed not to panic.
- `rest.BaseDbParams` is reduced to its role. `options.ClientOptions` is reduced
  to URI, TLS and the credential pointer. Caller tuning is kept unless the
  provisioned URL sets the same option through `ApplyURI`, which is not modelled.
- Logging, `init`, configuration loading and the test plumbing are left out.
- MongoDatabases.GetMongoDbClient: an empty sequence stands for a nil variadic
  slice. An explicitly spread empty, non-nil slice would panic on `opts[0]`;
  that case is not modelled.
- MongoClient.BuildServiceDbParams: the same nil-versus-empty simplification of
  the variadic params. It also applies to MongoClient.BuildTenantDbParams.
- A DbaaS answer of `(nil, nil)` from get-or-create is not modelled. It would
  panic on the dereference `*logicalDb`.

## Findings

| source | as written | input that shows it | evidently intended | confidence | as-written member | corrected member |
|---|---|---|---|---|---|---|
| mongo_db_client.go:44-56 | Rotation updates a local copy of the cached struct, so the cache slot keeps the handle that was just disconnected. | Call 1 caches client 1. Call 2 gets an auth failure, disconnects client 1 and returns client 2. Call 3 probes client 1, which call 2 disconnected: a healthy probe returns it, and a probe failing with a non-connection error panics. | Replace the cached entry with the rotated one, so the next call uses the live handle. | not executed; high | Findings.StaleSlotAfterRotation | Findings.CorrectedRotationReplacesSlot |
| mongo_db_client.go:100 | After rotation, the database is named by `AuthDbName`, while first connect uses getDbName. | Properties with dbName "orders" and authDbName "admin": call 1 returns "orders"; after a rotation the call returns "admin". | Name the rotated database by getDbName of the fetched properties. | not executed; medium | Findings.RotationSwitchesToAuthDb | Findings.CorrectedRotationKeepsDbName |
| mongo_db_client.go:93-95 | The reconnect reads the client's shared options object. The last first-connect of any key set its URL and credential pointer. | One client (such as a tenant database) connects key a, then key b. Then a's password is rotated: the reconnect uses b's URL and b's password. | Reconnect key a with a's fetched URL and new credential. | not executed; medium | Findings.RotationReconnectsToOtherKey | Findings.CorrectedRotationUsesFetchedUrl |

The corrected rotation (`Findings.UseCachedMongoDbCorrected`, used by
`Findings.GetMongoDatabaseCorrected`) works as follows:

- After the disconnect, it rebuilds the client's options from the fetched
  properties with `BuildMongoOptions`. It uses the same options object, so
  caller tuning is kept unless the provisioned URL sets the same option.
- It reconnects and names the database by getDbName.
- It replaces the cache slot.

Its contract proves that every returned handle is the handle the cache holds.
The finding rows use three further members:

- `Findings.RotationKeepsDisconnectedHandle` states the two-call mechanism
  behind the first row: the rotation returns the new client and leaves the
  disconnected one in the slot.
- `Findings.RotationReconnectsWithOptionsCredential` states the single-call
  mechanism behind the third row.
- `Findings.OtherKeyRepointsOptions` shows how the options come to point at
  another key.
