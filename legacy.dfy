/**
 * The older single-pass extractor (lib/dataProducts/processor.js): one
 * record per service definition, then the service and entity annotations
 * written into each record in place. A record whose annotation throws
 * keeps whatever was written into it before the throw, and entity
 * annotations never change its source.
 */
module Legacy {
  import opened Js
  import opened Text
  import opened Constants
  import opened Utils
  import opened TagMerge
  import opened Csn
  import opened Annotate
  import Defaults

  /** `initDataProductObj`: nine fields, without a local id, a short description or a category. */
  function LegacyInit(serviceName: string, namespace: Json): Object
  {
    var id := GenerateDataProductId(namespace, Str(serviceName), Undef).value;
    [Field("id", Str(id)), Field("title", Str(serviceName)), Field("description", Str(DESCRIPTION_PREFIX + serviceName)),
     Field("version", Str(DEFAULT_VERSION)), Field("type", Str(DEFAULT_TYPE)), Field("visibility", Str(DEFAULT_VISIBILITY)),
     Field("serviceName", Str(serviceName)), Field("tags", Arr([])), Field("source", Str(SOURCE_DEFAULT))]
  }

  /** The id, service name, tags and source of a fresh record. */
  lemma LegacyInitFields(serviceName: string, namespace: Json)
    ensures Lookup(LegacyInit(serviceName, namespace), "id") == Str(JsString(namespace) + ":dataProduct:" + serviceName + ":v1")
    ensures Lookup(LegacyInit(serviceName, namespace), "serviceName") == Str(serviceName)
    ensures Lookup(LegacyInit(serviceName, namespace), "tags") == Arr([])
    ensures Lookup(LegacyInit(serviceName, namespace), "source") == Str(SOURCE_DEFAULT)
  {
    var dp := LegacyInit(serviceName, namespace);
    assert JsString(namespace) + ":dataProduct:" + serviceName + ":" + "v1"
        == JsString(namespace) + ":dataProduct:" + serviceName + ":v1";
    LookupAt(dp, 6); LookupAt(dp, 7); LookupAt(dp, 8);
  }

  /** A fresh record has neither a local id, nor a short description, nor a category. */
  lemma LegacyInitOmits(serviceName: string, namespace: Json)
    ensures !HasKey(LegacyInit(serviceName, namespace), "localId")
    ensures !HasKey(LegacyInit(serviceName, namespace), "shortDescription")
    ensures !HasKey(LegacyInit(serviceName, namespace), "category")
  {
  }

  /** `createDefaultDataProducts`: reading `kind` of a missing definition throws. */
  function LegacyRecords(defs: seq<Field>, namespace: Json): Result<seq<Object>>
  {
    if defs == [] then Ok([])
    else if IsNullish(defs[0].value) then Err(TypeError)
    else
      Prepend(if Defaults.IsService(defs[0].value) then [LegacyInit(defs[0].key, namespace)] else [],
              LegacyRecords(defs[1..], namespace))
  }

  /** One fresh record per service definition, in definition order; a missing definition throws. */
  lemma {:induction false} LegacyRecordsPerService(defs: seq<Field>, namespace: Json)
    ensures LegacyRecords(defs, namespace).Err? <==> exists i :: 0 <= i < |defs| && IsNullish(defs[i].value)
    ensures LegacyRecords(defs, namespace).Ok? ==>
              |LegacyRecords(defs, namespace).value| == |Defaults.ServiceNames(defs)| &&
              forall i :: 0 <= i < |Defaults.ServiceNames(defs)| ==>
                LegacyRecords(defs, namespace).value[i] == LegacyInit(Defaults.ServiceNames(defs)[i], namespace)
    decreases |defs|
  {
    if defs != [] {
      var tail := defs[1..];
      LegacyRecordsPerService(tail, namespace);
      assert forall i :: 0 <= i < |tail| ==> tail[i] == defs[i + 1];
      if !IsNullish(defs[0].value) {
        assert (exists i :: 0 <= i < |defs| && IsNullish(defs[i].value)) <==>
               (exists i :: 0 <= i < |tail| && IsNullish(tail[i].value)) by {
          if exists i :: 0 <= i < |defs| && IsNullish(defs[i].value) {
            var i :| 0 <= i < |defs| && IsNullish(defs[i].value);
            assert tail[i - 1] == defs[i];
          }
        }
        var nameHead := if Defaults.IsService(defs[0].value) then [defs[0].key] else [];
        assert Defaults.ServiceNames(defs) == nameHead + Defaults.ServiceNames(tail);
      }
    }
  }

  /**
   * One record of the `forEach`: the service annotation, then the entity
   * annotations, written into the record. Reading the annotation of a
   * missing service throws before anything is written; a throw in the
   * service annotation leaves what was written so far and skips the
   * entities.
   */
  function LegacyEnrich(dp: Object, csn: Json): Object
  {
    var service := Definition(csn, Lookup(dp, "serviceName"));
    if service.Err? || IsNullish(service.value) then dp
    else
      var ann := Get(service.value, ANN_DATA_PRODUCT);
      var p := if Truthy(ann) then ServiceSteps(dp, ann) else Partial(dp, false);
      if p.thrown then p.record
      else EntitySteps(p.record, service.value, csn, false).record
  }

  /** `extractDataProductsFromModel` */
  function Extract(csn: Json, namespace: Json): Result<seq<Object>>
  {
    var defs :- Definitions(csn);
    var records :- LegacyRecords(defs, namespace);
    Ok(seq(|records|, i requires 0 <= i < |records| => LegacyEnrich(records[i], csn)))
  }

  /**
   * The extractor throws exactly when the model, its definitions or one
   * definition is missing; otherwise it yields one record per service
   * definition, in definition order, each built from its fresh record.
   */
  lemma ExtractPerService(csn: Json, namespace: Json)
    ensures Extract(csn, namespace).Err? <==>
              Definitions(csn).Err? ||
              exists i :: 0 <= i < |Definitions(csn).value| && IsNullish(Definitions(csn).value[i].value)
    ensures Extract(csn, namespace).Ok? ==>
              var names := Defaults.ServiceNames(Definitions(csn).value);
              |Extract(csn, namespace).value| == |names| &&
              forall i :: 0 <= i < |names| ==> Extract(csn, namespace).value[i] == LegacyEnrich(LegacyInit(names[i], namespace), csn)
  {
    if Definitions(csn).Ok? {
      LegacyRecordsPerService(Definitions(csn).value, namespace);
    }
  }

  /** The extractor writes no key outside the annotation keys, so the service name stays. */
  lemma LegacyEnrichWrites(dp: Object, csn: Json, k: string)
    requires k !in SERVICE_KEYS + ENTITY_KEYS
    ensures Lookup(LegacyEnrich(dp, csn), k) == Lookup(dp, k)
  {
    var service := Definition(csn, Lookup(dp, "serviceName"));
    if service.Ok? && !IsNullish(service.value) {
      var ann := Get(service.value, ANN_DATA_PRODUCT);
      if Truthy(ann) {
        ServiceStepsWrites(dp, ann, k);
      }
      var p := if Truthy(ann) then ServiceSteps(dp, ann) else Partial(dp, false);
      EntityStepsWrites(p.record, service.value, csn, false, k);
    }
  }

  /**
   * A service annotation that throws leaves the record as far as the
   * assignments got: the title and description are already written, and the
   * entity annotations are skipped.
   */
  lemma LegacyKeepsPartialWrites(dp: Object, csn: Json)
    requires Definition(csn, Lookup(dp, "serviceName")).Ok?
    requires var service := Definition(csn, Lookup(dp, "serviceName")).value;
             !IsNullish(service) && Truthy(Get(service, ANN_DATA_PRODUCT)) &&
             ServiceSteps(dp, Get(service, ANN_DATA_PRODUCT)).thrown
    ensures var ann := Get(Definition(csn, Lookup(dp, "serviceName")).value, ANN_DATA_PRODUCT);
            LegacyEnrich(dp, csn) == ServiceSteps(dp, ann).record &&
            (Truthy(Get(ann, "title")) ==> Lookup(LegacyEnrich(dp, csn), "title") == Get(ann, "title")) &&
            (Truthy(Get(ann, "description")) ==> Lookup(LegacyEnrich(dp, csn), "description") == Get(ann, "description"))
  {
    var ann := Get(Definition(csn, Lookup(dp, "serviceName")).value, ANN_DATA_PRODUCT);
    PartialKeepsTexts(dp, ann);
  }

  /** Title and description are written before anything can throw. */
  lemma PartialKeepsTexts(dp: Object, ann: Json)
    ensures Truthy(Get(ann, "title")) ==> Lookup(ServiceSteps(dp, ann).record, "title") == Get(ann, "title")
    ensures Truthy(Get(ann, "description")) ==> Lookup(ServiceSteps(dp, ann).record, "description") == Get(ann, "description")
  {
    TextsWrites(dp, ann);
    PrefixKeepsTexts(dp, ann);
    RestKeepsTexts(Prefix(dp, ann).record, ann);
  }

  lemma TextsWrites(dp: Object, ann: Json)
    ensures Truthy(Get(ann, "title")) ==> Lookup(Texts(dp, ann), "title") == Get(ann, "title")
    ensures Truthy(Get(ann, "description")) ==> Lookup(Texts(dp, ann), "description") == Get(ann, "description")
  {
  }

  lemma PrefixKeepsTexts(dp: Object, ann: Json)
    ensures Lookup(Prefix(dp, ann).record, "title") == Lookup(Texts(dp, ann), "title")
    ensures Lookup(Prefix(dp, ann).record, "description") == Lookup(Texts(dp, ann), "description")
  {
  }

  lemma RestKeepsTexts(dp: Object, ann: Json)
    ensures Lookup(AnnotatedTags(Classify(dp, ann), ann).record, "title") == Lookup(dp, "title")
    ensures Lookup(AnnotatedTags(Classify(dp, ann), ann).record, "description") == Lookup(dp, "description")
  {
  }

  /**
   * Entity annotations never change the source: without a service
   * annotation the record keeps its source, and with one that applies it is
   * "annotated".
   */
  lemma LegacySource(dp: Object, csn: Json)
    requires Definition(csn, Lookup(dp, "serviceName")).Ok?
    requires !IsNullish(Definition(csn, Lookup(dp, "serviceName")).value)
    ensures var ann := Get(Definition(csn, Lookup(dp, "serviceName")).value, ANN_DATA_PRODUCT);
            !Truthy(ann) ==> Lookup(LegacyEnrich(dp, csn), "source") == Lookup(dp, "source")
    ensures var ann := Get(Definition(csn, Lookup(dp, "serviceName")).value, ANN_DATA_PRODUCT);
            Truthy(ann) && !ServiceSteps(dp, ann).thrown ==> Lookup(LegacyEnrich(dp, csn), "source") == Str(SOURCE_ANNOTATED)
  {
    var service := Definition(csn, Lookup(dp, "serviceName")).value;
    var ann := Get(service, ANN_DATA_PRODUCT);
    var p := if Truthy(ann) then ServiceSteps(dp, ann) else Partial(dp, false);
    if Truthy(ann) && !p.thrown {
      ServiceStepsMarkSource(dp, ann);
    }
    EntityStepsSource(p.record, service, csn, false);
  }

  // ---------------------------------------------------------------------------
  // The records as mutable objects
  // ---------------------------------------------------------------------------

  /** A data product object that the extractor's helpers write into. */
  class DataProduct {
    var fields: Object

    constructor(fields: Object)
      ensures this.fields == fields
    {
      this.fields := fields;
    }

    /** `applyServiceAnnotations(dataProduct, annotation)`; `thrown` says whether it stopped with an exception. */
    method ApplyServiceAnnotations(annotation: Json) returns (thrown: bool)
      modifies this
      ensures fields == ServiceSteps(old(fields), annotation).record
      ensures thrown == ServiceSteps(old(fields), annotation).thrown
    {
      ghost var dp := fields;
      var title := Get(annotation, "title");
      if Truthy(title) { fields := Set(fields, "title", title); }
      var description := Get(annotation, "description");
      if Truthy(description) { fields := Set(fields, "description", description); }
      assert fields == Texts(dp, annotation);
      var version := Get(annotation, "version");
      if Truthy(version) {
        var id := Lookup(fields, "id");
        fields := Set(fields, "version", version);
        if !version.Str? || !id.Str? {
          return true;
        }
        fields := Set(fields, "id", Str(ReplaceVersionSuffix(id.s, "v" + BeforeFirst(version.s, '.'))));
      }
      assert fields == Prefix(dp, annotation).record;
      ghost var prefix := fields;
      var t := Get(annotation, "type");
      if Truthy(t) { fields := Set(fields, "type", ValidateType(t)); }
      var visibility := Get(annotation, "visibility");
      if Truthy(visibility) { fields := Set(fields, "visibility", ValidateVisibility(visibility)); }
      var responsible := Get(annotation, "responsible");
      if Truthy(responsible) { fields := Set(fields, "responsible", responsible); }
      assert fields == Classify(prefix, annotation);
      thrown := AppendAnnotatedTags(annotation);
    }

    /** The tag concatenation and the source mark that end `applyServiceAnnotations`. */
    method AppendAnnotatedTags(annotation: Json) returns (thrown: bool)
      modifies this
      ensures fields == AnnotatedTags(old(fields), annotation).record
      ensures thrown == AnnotatedTags(old(fields), annotation).thrown
    {
      var tags := Get(annotation, "tags");
      if Truthy(tags) {
        var existing := Iterate(Lookup(fields, "tags"));
        var added := ProcessTags(tags);
        if existing.Err? || added.Err? {
          return true;
        }
        fields := Set(fields, "tags", Arr(existing.value + added.value));
      }
      fields := Set(fields, "source", Str(SOURCE_ANNOTATED));
      return false;
    }

    /** `enrichWithEntityAnnotations(dataProduct, service, csn)`: schema, lineage and property tags, no source. */
    method EnrichWithEntityAnnotations(service: Json, csn: Json) returns (thrown: bool)
      modifies this
      ensures fields == EntitySteps(old(fields), service, csn, false).record
      ensures thrown == EntitySteps(old(fields), service, csn, false).thrown
    {
      var found := ExtractServiceEntities(service, csn);
      if found.Err? {
        return true;
      }
      var entities := found.value;
      SetSchemaAndLineage(entities);
      var propertyTags := ExtractPropertyTags(entities);
      if propertyTags.Err? {
        return true;
      }
      thrown := MergePropertyTags(propertyTags.value);
    }

    /** `dataProduct.schema` and `dataProduct.lineage` from the first entity carrying them. */
    method SetSchemaAndLineage(entities: seq<Json>)
      modifies this
      ensures fields == SchemaAndLineage(old(fields), entities, false)
    {
      var schema := FirstAnnotation(entities, ANN_SCHEMA);
      if Truthy(schema) { fields := Set(fields, "schema", schema); }
      var lineage := FirstAnnotation(entities, ANN_LINEAGE);
      if Truthy(lineage) { fields := Set(fields, "lineage", lineage); }
    }

    /** `dataProduct.tags = mergeUniqueTags(dataProduct.tags, propertyTags)` when there are property tags. */
    method MergePropertyTags(propertyTags: seq<Json>) returns (thrown: bool)
      modifies this
      ensures fields == TagStep(old(fields), propertyTags, false).record
      ensures thrown == TagStep(old(fields), propertyTags, false).thrown
    {
      if |propertyTags| == 0 {
        return false;
      }
      var tags := Lookup(fields, "tags");
      if !tags.Arr? {
        return true;
      }
      var merged := MergeUniqueTags(tags.items, propertyTags);
      if merged.Err? {
        return true;
      }
      fields := Set(fields, "tags", Arr(merged.value));
      return false;
    }
  }

  /** One pass of the `forEach` body on one record, with its `try`/`catch`. */
  method AnnotateInPlace(dataProduct: DataProduct, csn: Json)
    modifies dataProduct
    ensures dataProduct.fields == LegacyEnrich(old(dataProduct.fields), csn)
  {
    var found := Definition(csn, Lookup(dataProduct.fields, "serviceName"));
    if found.Err? || IsNullish(found.value) {
      return;
    }
    var service := found.value;
    var ann := Get(service, ANN_DATA_PRODUCT);
    if Truthy(ann) {
      var thrown := dataProduct.ApplyServiceAnnotations(ann);
      if thrown {
        return;
      }
    }
    var _ := dataProduct.EnrichWithEntityAnnotations(service, csn);
  }

  /** The records' current fields, in order. */
  ghost function FieldsOf(products: seq<DataProduct>): (r: seq<Object>)
    reads products
    ensures |r| == |products|
    ensures forall i :: 0 <= i < |products| ==> r[i] == products[i].fields
  {
    if products == [] then [] else [products[0].fields] + FieldsOf(products[1..])
  }

  /** No record object occurs twice. */
  predicate Distinct(products: seq<DataProduct>)
  {
    forall i, j :: 0 <= i < j < |products| ==> products[i] != products[j]
  }

  /** Appending a record not yet present appends its fields and keeps the objects distinct. */
  lemma AppendLaws(products: seq<DataProduct>, product: DataProduct)
    requires Distinct(products) && product !in products
    ensures FieldsOf(products + [product]) == FieldsOf(products) + [product.fields]
    ensures Distinct(products + [product])
  {
  }

  /** `createDefaultDataProducts(csn, namespace)`: one new object per service definition. */
  method CreateDefaultDataProducts(csn: Json, namespace: Json) returns (r: Result<seq<DataProduct>>)
    ensures Definitions(csn).Err? ==> r.Err?
    ensures Definitions(csn).Ok? ==> (r.Ok? <==> LegacyRecords(Definitions(csn).value, namespace).Ok?)
    ensures r.Ok? ==> FieldsOf(r.value) == LegacyRecords(Definitions(csn).value, namespace).value
    ensures r.Ok? ==> Distinct(r.value) && forall p | p in r.value :: fresh(p)
  {
    var defs :- Definitions(csn);
    var dataProducts: seq<DataProduct> := [];
    assert defs[0..] == defs;
    PrependLaws([], [], LegacyRecords(defs, namespace));
    for i := 0 to |defs|
      invariant LegacyRecords(defs, namespace) == Prepend(FieldsOf(dataProducts), LegacyRecords(defs[i..], namespace))
      invariant Distinct(dataProducts) && forall p | p in dataProducts :: fresh(p)
    {
      assert defs[i..][1..] == defs[i + 1..];
      var definition := defs[i].value;
      if IsNullish(definition) {
        return Err(TypeError);
      }
      ghost var head := if Defaults.IsService(definition) then [LegacyInit(defs[i].key, namespace)] else [];
      ghost var before := FieldsOf(dataProducts);
      PrependLaws(before, head, LegacyRecords(defs[i + 1..], namespace));
      if Defaults.IsService(definition) {
        var dataProduct := new DataProduct(LegacyInit(defs[i].key, namespace));
        AppendLaws(dataProducts, dataProduct);
        dataProducts := dataProducts + [dataProduct];
      }
    }
    assert defs[|defs|..] == [];
    assert FieldsOf(dataProducts) + [] == FieldsOf(dataProducts);
    return Ok(dataProducts);
  }

  /** The `forEach` over the records: each one annotated in place, a throwing one left as far as it got. */
  method AnnotateAll(dataProducts: seq<DataProduct>, csn: Json)
    requires Distinct(dataProducts)
    modifies dataProducts
    ensures forall j :: 0 <= j < |dataProducts| ==> dataProducts[j].fields == LegacyEnrich(old(dataProducts[j].fields), csn)
  {
    ghost var before := FieldsOf(dataProducts);
    ghost var goal := seq(|before|, j requires 0 <= j < |before| => LegacyEnrich(before[j], csn));
    for i := 0 to |dataProducts|
      invariant forall j :: 0 <= j < i ==> dataProducts[j].fields == goal[j]
      invariant forall j :: i <= j < |dataProducts| ==> dataProducts[j].fields == before[j]
    {
      label Before:
      AnnotateInPlace(dataProducts[i], csn);
      forall j | 0 <= j < |dataProducts| && j != i
        ensures dataProducts[j].fields == old@Before(dataProducts[j].fields)
      {
        assert dataProducts[j] != dataProducts[i];
      }
      assert dataProducts[i].fields == goal[i];
    }
  }

  /** `Extract` is the fresh records, each enriched. */
  lemma ExtractFromRecords(csn: Json, namespace: Json, enriched: seq<Object>)
    requires Definitions(csn).Ok? && LegacyRecords(Definitions(csn).value, namespace).Ok?
    requires var records := LegacyRecords(Definitions(csn).value, namespace).value;
             |enriched| == |records| && forall j :: 0 <= j < |records| ==> enriched[j] == LegacyEnrich(records[j], csn)
    ensures Extract(csn, namespace) == Ok(enriched)
  {
    var records := LegacyRecords(Definitions(csn).value, namespace).value;
    assert Extract(csn, namespace).value == enriched;
  }

  /** `extractDataProductsFromModel(csn, namespace)`: the default objects, each annotated in place. */
  method ExtractDataProductsFromModel(csn: Json, namespace: Json) returns (r: Result<seq<DataProduct>>)
    ensures r.Ok? <==> Extract(csn, namespace).Ok?
    ensures r.Ok? ==> FieldsOf(r.value) == Extract(csn, namespace).value
    ensures r.Ok? ==> Distinct(r.value) && forall p | p in r.value :: fresh(p)
  {
    var dataProducts :- CreateDefaultDataProducts(csn, namespace);
    forall j | 0 <= j < |dataProducts|
      ensures fresh(dataProducts[j])
    {
      assert dataProducts[j] in dataProducts;
    }
    AnnotateAll(dataProducts, csn);
    ExtractFromRecords(csn, namespace, FieldsOf(dataProducts));
    return Ok(dataProducts);
  }
}
