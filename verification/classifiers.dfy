/**
 * Classifiers and database parameters (mongo_client.go, model.DbParams).
 * The base classifiers come from the DbaaS base library and read the
 * request context; a context is represented here by what they return in it.
 */
module Classifiers {
  import opened Wrappers
  import opened Objects

  /** DB_TYPE: the database kind sent to DbaaS and used in cache keys. */
  const DbType := "mongodb"

  /**
   * A request context, seen through the base library: the service
   * classifier it yields, and the tenant classifier it yields, or None when
   * the context carries no tenant (the base function then panics).
   */
  datatype Ctx = Ctx(baseService: Classifier, baseTenant: Option<Classifier>)

  /** rest.BaseDbParams, reduced to the role it carries. */
  datatype BaseDbParams = BaseDbParams(role: string)

  /** A non-nil classifier function of model.DbParams. */
  datatype ClassifierFn =
    | ServiceClassifierFn
    | TenantClassifierFn
    | CustomClassifierFn(f: Ctx -> Classifier)

  /** model.DbParams; a `None` classifier is a nil function. */
  datatype DbParams = DbParams(classifier: Option<ClassifierFn>, base: BaseDbParams)

  /** The zero value `model.DbParams{}`. */
  const ZeroParams := DbParams(None, BaseDbParams(""))

  /** ServiceClassifier: the base service classifier plus `dbClassifier = "default"`. */
  function ServiceClassifier(ctx: Ctx): (c: Classifier)
    ensures c.Keys == ctx.baseService.Keys + {"dbClassifier"}
    ensures c["dbClassifier"] == Str("default")
    ensures forall k :: k in ctx.baseService && k != "dbClassifier" ==> c[k] == ctx.baseService[k]
  {
    ctx.baseService["dbClassifier" := Str("default")]
  }

  /** TenantClassifier: as ServiceClassifier over the tenant base; None where it panics. */
  function TenantClassifier(ctx: Ctx): (c: Option<Classifier>)
    ensures c.Some? <==> ctx.baseTenant.Some?
    ensures c.Some? ==> c.value.Keys == ctx.baseTenant.value.Keys + {"dbClassifier"}
    ensures c.Some? ==> c.value["dbClassifier"] == Str("default")
    ensures c.Some? ==> forall k :: k in ctx.baseTenant.value && k != "dbClassifier" ==> c.value[k] == ctx.baseTenant.value[k]
  {
    match ctx.baseTenant
    case None => None
    case Some(base) => Some(base["dbClassifier" := Str("default")])
  }

  /** `params.Classifier(ctx)`: None when the function is nil or panics. */
  function Classify(fn: Option<ClassifierFn>, ctx: Ctx): Option<Classifier> {
    match fn
    case None => None
    case Some(ServiceClassifierFn) => Some(ServiceClassifier(ctx))
    case Some(TenantClassifierFn) => TenantClassifier(ctx)
    case Some(CustomClassifierFn(f)) => Some(f(ctx))
  }

  /** The service classifier of a context built from the configuration in the tests. */
  lemma ServiceClassifierOfConfiguredService(ctx: Ctx)
    requires ctx.baseService == map["microserviceName" := Str("test_service"), "namespace" := Str("test_space"), "scope" := Str("service")]
    ensures ServiceClassifier(ctx) == map["microserviceName" := Str("test_service"), "dbClassifier" := Str("default"),
                                          "namespace" := Str("test_space"), "scope" := Str("service")]
  {
  }

  /** Adding the discriminator is idempotent: a base that already has it yields the same map. */
  lemma ServiceClassifierIdempotent(ctx: Ctx)
    ensures ServiceClassifier(Ctx(ServiceClassifier(ctx), ctx.baseTenant)) == ServiceClassifier(ctx)
  {
  }
}
