/**
 * The second stage of the chain: CDS annotations of each record's service
 * and of the entities it exposes
 * (lib/dataProducts/processors/AnnotationsProcessor.js). Every record is
 * annotated on a copy; a record whose service is not defined, or whose
 * annotation throws, comes out unchanged.
 */
module Annotations {
  import opened Js
  import opened Constants
  import opened Utils
  import opened Csn
  import opened Annotate
  import opened StageMap
  import opened Defaults

  /** The copy after `applyServiceAnnotations`, when the service carries `@ORD.dataProduct`. */
  function Annotated(dp: Object, service: Json): Result<Object>
  {
    var ann := Get(service, ANN_DATA_PRODUCT);
    if Truthy(ann) then Outcome(ServiceSteps(dp, ann)) else Ok(dp)
  }

  /** The body of the `try`: the service, its annotation, then the entity annotations. */
  function Enrich(dp: Object, ctx: Context): Result<Object>
  {
    var service :- ServiceOf(ctx, dp);
    if !Truthy(service) then Ok(dp)
    else
      var annotated :- Annotated(dp, service);
      Outcome(EntitySteps(annotated, service, ctx.csn, true))
  }

  /** `process`: every record enriched, a record whose enrichment throws kept as it was. */
  function Process(records: seq<Object>, ctx: Context): seq<Object>
  {
    MapGuarded(records, dp => Enrich(dp, ctx), dp => dp)
  }

  /** The keys the stage may write. */
  const WRITTEN_KEYS := SERVICE_KEYS + ENTITY_KEYS

  /** A successful enrichment writes no key outside `WRITTEN_KEYS`. */
  lemma EnrichWrites(dp: Object, ctx: Context, k: string)
    requires k !in WRITTEN_KEYS && Enrich(dp, ctx).Ok?
    ensures Lookup(Enrich(dp, ctx).value, k) == Lookup(dp, k)
  {
    var service := ServiceOf(ctx, dp).value;
    if Truthy(service) {
      var ann := Get(service, ANN_DATA_PRODUCT);
      if Truthy(ann) {
        ServiceStepsWrites(dp, ann, k);
      }
      EntityStepsWrites(Annotated(dp, service).value, service, ctx.csn, true, k);
    }
  }

  /**
   * The stage keeps the number and order of the records and every field
   * outside `WRITTEN_KEYS`; in particular the service name and local id.
   */
  lemma ProcessKeepsFields(records: seq<Object>, ctx: Context, k: string)
    requires k !in WRITTEN_KEYS
    ensures |Process(records, ctx)| == |records|
    ensures forall i :: 0 <= i < |records| ==> Lookup(Process(records, ctx)[i], k) == Lookup(records[i], k)
  {
    forall i | 0 <= i < |records|
      ensures Lookup(Process(records, ctx)[i], k) == Lookup(records[i], k)
    {
      if Enrich(records[i], ctx).Ok? {
        EnrichWrites(records[i], ctx, k);
      }
    }
  }

  /** A record whose service is not defined, or whose annotation throws, comes out unchanged. */
  lemma ProcessKeepsUnannotated(records: seq<Object>, ctx: Context, i: nat)
    requires i < |records|
    requires ServiceOf(ctx, records[i]).Err? || !Truthy(ServiceOf(ctx, records[i]).value) || Enrich(records[i], ctx).Err?
    ensures Process(records, ctx)[i] == records[i]
  {
  }

  /** A record whose service carries `@ORD.dataProduct` and whose enrichment succeeds is marked annotated. */
  lemma EnrichMarksAnnotated(dp: Object, ctx: Context)
    requires Enrich(dp, ctx).Ok? && ServiceOf(ctx, dp).Ok?
    requires Truthy(ServiceOf(ctx, dp).value) && Truthy(Get(ServiceOf(ctx, dp).value, ANN_DATA_PRODUCT))
    ensures Lookup(Enrich(dp, ctx).value, "source") == Str(SOURCE_ANNOTATED)
  {
    var service := ServiceOf(ctx, dp).value;
    ServiceStepsMarkSource(dp, Get(service, ANN_DATA_PRODUCT));
    EntityStepsSource(Annotated(dp, service).value, service, ctx.csn, true);
  }

  /**
   * On a default record the service annotation throws only for a version
   * that is not a string or for annotated tags holding null or undefined:
   * the default id is a string and the default tags an empty array.
   */
  lemma DefaultRecordServiceSteps(serviceName: string, namespace: Json, ann: Json)
    ensures ServiceSteps(InitDataProduct(serviceName, namespace), ann).thrown <==>
              (Truthy(Get(ann, "version")) && !Get(ann, "version").Str?) ||
              (Truthy(Get(ann, "tags")) && ProcessTags(Get(ann, "tags")).Err?)
  {
    var dp := InitDataProduct(serviceName, namespace);
    InitDataProductId(serviceName, namespace);
    InitDataProductUntagged(serviceName, namespace);
    ServiceStepsThrow(dp, ann);
  }

  /**
   * An annotated version on a record that still has its default id gives
   * the id generated directly from that version: the `v1` suffix becomes
   * `v` and the major version.
   */
  lemma EnrichVersioned(dp: Object, ctx: Context, serviceName: Json)
    requires Lookup(dp, "id") == Str(GenerateDataProductId(ctx.namespace, serviceName, Undef).value)
    requires Enrich(dp, ctx).Ok? && ServiceOf(ctx, dp).Ok?
    requires var service := ServiceOf(ctx, dp).value;
             Truthy(service) && Truthy(Get(service, ANN_DATA_PRODUCT)) &&
             Get(Get(service, ANN_DATA_PRODUCT), "version").Str? && Get(Get(service, ANN_DATA_PRODUCT), "version").s != ""
    ensures var version := Get(Get(ServiceOf(ctx, dp).value, ANN_DATA_PRODUCT), "version");
            Lookup(Enrich(dp, ctx).value, "id") == Str(GenerateDataProductId(ctx.namespace, serviceName, version).value)
  {
    var service := ServiceOf(ctx, dp).value;
    var ann := Get(service, ANN_DATA_PRODUCT);
    VersionRewriteOfDefaultId(ctx.namespace, serviceName, Get(ann, "version").s);
    ServiceStepsId(dp, ann);
    EntityStepsKeep(Annotated(dp, service).value, service, ctx.csn, true);
  }

  /** In particular on a default record. */
  lemma DefaultRecordVersioned(serviceName: string, ctx: Context)
    requires Enrich(InitDataProduct(serviceName, ctx.namespace), ctx).Ok?
    requires ServiceOf(ctx, InitDataProduct(serviceName, ctx.namespace)).Ok?
    requires var service := ServiceOf(ctx, InitDataProduct(serviceName, ctx.namespace)).value;
             Truthy(service) && Truthy(Get(service, ANN_DATA_PRODUCT)) &&
             Get(Get(service, ANN_DATA_PRODUCT), "version").Str? && Get(Get(service, ANN_DATA_PRODUCT), "version").s != ""
    ensures var version := Get(Get(ServiceOf(ctx, InitDataProduct(serviceName, ctx.namespace)).value, ANN_DATA_PRODUCT), "version");
            Lookup(Enrich(InitDataProduct(serviceName, ctx.namespace), ctx).value, "id")
            == Str(GenerateDataProductId(ctx.namespace, Str(serviceName), version).value)
  {
    var dp := InitDataProduct(serviceName, ctx.namespace);
    InitDataProductId(serviceName, ctx.namespace);
    assert GenerateDataProductId(ctx.namespace, Str(serviceName), Undef).value == Lookup(dp, "id").s;
    EnrichVersioned(dp, ctx, Str(serviceName));
  }

  /** A successful enrichment validates an annotated type and visibility. */
  lemma EnrichValidates(dp: Object, ctx: Context)
    requires Enrich(dp, ctx).Ok? && ServiceOf(ctx, dp).Ok? && Truthy(ServiceOf(ctx, dp).value)
    ensures var ann := Get(ServiceOf(ctx, dp).value, ANN_DATA_PRODUCT);
            Truthy(ann) && Truthy(Get(ann, "type")) ==> IsOneOf(Lookup(Enrich(dp, ctx).value, "type"), VALID_TYPES)
    ensures var ann := Get(ServiceOf(ctx, dp).value, ANN_DATA_PRODUCT);
            Truthy(ann) && Truthy(Get(ann, "visibility")) ==>
              IsOneOf(Lookup(Enrich(dp, ctx).value, "visibility"), RESOURCE_VISIBILITIES)
  {
    var service := ServiceOf(ctx, dp).value;
    var ann := Get(service, ANN_DATA_PRODUCT);
    if Truthy(ann) {
      ServiceStepsValidate(dp, ann);
    }
    EntityStepsKeep(Annotated(dp, service).value, service, ctx.csn, true);
  }
}
