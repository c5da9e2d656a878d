/**
 * Decoding of the connection properties returned by DbaaS into the
 * MongoConnProperties record (mongo_database.go, model package).
 */
module ConnProperties {
  import opened Objects

  /** The raw `connectionProperties` object of a logical database. */
  type PropertyMap = map<string, Value>

  /** model.MongoConnProperties. */
  datatype MongoConnProperties = MongoConnProperties(
    url: string,
    username: string,
    password: string,
    authDbName: string,
    dbName: string)

  predicate HasString(m: PropertyMap, k: string) {
    k in m && m[k].Str?
  }

  /**
   * The maps the decoder accepts without panicking: the four required keys
   * hold strings, and `dbName`, if present, is a string (any other value
   * differs from "" and then fails the `.(string)` assertion).
   */
  predicate WellFormed(m: PropertyMap) {
    && HasString(m, "url")
    && HasString(m, "username")
    && HasString(m, "password")
    && HasString(m, "authDbName")
    && ("dbName" in m ==> m["dbName"].Str?)
  }

  /** The target database: a present, non-empty `dbName`, else `authDbName`. */
  function GetDbName(m: PropertyMap): (name: string)
    requires HasString(m, "authDbName")
    requires "dbName" in m ==> m["dbName"].Str?
    ensures "dbName" in m && m["dbName"].s != "" ==> name == m["dbName"].s
    ensures !("dbName" in m && m["dbName"].s != "") ==> name == m["authDbName"].s
  {
    if "dbName" in m && m["dbName"] != Str("") then m["dbName"].s else m["authDbName"].s
  }

  /** toMongoConnProperties. */
  function ToMongoConnProperties(m: PropertyMap): (p: MongoConnProperties)
    requires WellFormed(m)
    ensures p.url == m["url"].s && p.username == m["username"].s
    ensures p.password == m["password"].s && p.authDbName == m["authDbName"].s
    ensures p.dbName == GetDbName(m)
    ensures p.dbName == "" ==> p.authDbName == ""
  {
    MongoConnProperties(m["url"].s, m["username"].s, m["password"].s, m["authDbName"].s, GetDbName(m))
  }

  /** The DbaaS wire shape of a record: the five keys, each a string. */
  function Encode(p: MongoConnProperties): (m: PropertyMap)
    ensures WellFormed(m)
    ensures m.Keys == {"url", "username", "password", "authDbName", "dbName"}
  {
    map["url" := Str(p.url), "username" := Str(p.username), "password" := Str(p.password),
        "authDbName" := Str(p.authDbName), "dbName" := Str(p.dbName)]
  }

  /** Records whose target database survives a trip through the wire shape. */
  predicate Normal(p: MongoConnProperties) {
    p.dbName != "" || p.authDbName == ""
  }

  /** Decoding an encoded record gives it back exactly when the record is normal. */
  lemma DecodeEncode(p: MongoConnProperties)
    ensures ToMongoConnProperties(Encode(p)) == p <==> Normal(p)
  {
    var m := Encode(p);
    assert m["dbName"] == Str(p.dbName);
    if p.dbName == "" {
      assert GetDbName(m) == p.authDbName;
    }
  }

  /** Every decoded record is normal, so decoding is a fixed point of encode-then-decode. */
  lemma DecodeIsNormal(m: PropertyMap)
    requires WellFormed(m)
    ensures Normal(ToMongoConnProperties(m))
    ensures ToMongoConnProperties(Encode(ToMongoConnProperties(m))) == ToMongoConnProperties(m)
  {
    DecodeEncode(ToMongoConnProperties(m));
  }

  /** Keys other than the five the decoder reads (such as "tls") do not affect it. */
  lemma DecodeIgnoresOtherKeys(m: PropertyMap, k: string, v: Value)
    requires WellFormed(m)
    requires k !in {"url", "username", "password", "authDbName", "dbName"}
    ensures WellFormed(m[k := v])
    ensures ToMongoConnProperties(m[k := v]) == ToMongoConnProperties(m)
  {
  }

  /** `"tls"` holds the boolean true (any other value, or absence, means no TLS). */
  predicate TlsRequested(m: PropertyMap) {
    "tls" in m && m["tls"] == Bool(true)
  }
}
