/**
 * Reading CDS annotations into a record, shared by the annotations stage
 * (lib/dataProducts/processors/AnnotationsProcessor.js) and the older
 * single-pass extractor (lib/dataProducts/processor.js): the service-level
 * `@ORD.dataProduct` annotation, the entities a service exposes, their
 * `@ORD.schema` and `@ORD.lineage` annotations and the `@ORD.tag`
 * annotations of their elements.
 *
 * Both sources apply the same assignments in the same order; the stage
 * works on a copy and drops it when something throws, the older extractor
 * writes into the record itself and keeps what was written before the
 * throw. The steps are therefore modelled as a `Partial`: the record as far
 * as the assignments got, and whether an exception stopped them.
 */
module Annotate {
  import opened Js
  import opened Text
  import opened Constants
  import opened Utils
  import opened TagMerge
  import opened Csn

  /** The record after a run of assignments, and whether one of them threw. */
  datatype Partial = Partial(record: Object, thrown: bool)

  /** A copy that is discarded when an assignment threw. */
  function Outcome(p: Partial): (r: Result<Object>)
    ensures r.Ok? <==> !p.thrown
    ensures r.Ok? ==> r.value == p.record
  {
    if p.thrown then Err(TypeError) else Ok(p.record)
  }

  /** The keys the service-level annotation may write. */
  const SERVICE_KEYS := {"title", "description", "version", "id", "type", "visibility", "responsible", "tags", "source"}

  /** The keys the entity-level annotations may write. */
  const ENTITY_KEYS := {"schema", "lineage", "tags", "source"}

  // ---------------------------------------------------------------------------
  // Service-level annotation
  // ---------------------------------------------------------------------------

  /** `if (annotation.title) ...; if (annotation.description) ...` */
  function Texts(dp: Object, ann: Json): (r: Object)
    ensures forall k :: k != "title" && k != "description" ==> Lookup(r, k) == Lookup(dp, k)
  {
    var title := Get(ann, "title");
    var r1 := if Truthy(title) then Set(dp, "title", title) else dp;
    var description := Get(ann, "description");
    if Truthy(description) then Set(r1, "description", description) else r1
  }

  /**
   * `version` is stored first; then the `v<digits>` suffix of the id is
   * replaced by `v` and the major version. Splitting a version that is not a
   * string, or replacing in an id that is not one, throws.
   */
  function ApplyVersion(dp: Object, version: Json): (p: Partial)
    ensures forall k :: k != "version" && k != "id" ==> Lookup(p.record, k) == Lookup(dp, k)
    ensures p.thrown <==> !version.Str? || !Lookup(dp, "id").Str?
  {
    var r := Set(dp, "version", version);
    var id := Lookup(dp, "id");
    if !version.Str? || !id.Str? then Partial(r, true)
    else Partial(Set(r, "id", Str(ReplaceVersionSuffix(id.s, "v" + BeforeFirst(version.s, '.')))), false)
  }

  /** `type` and `visibility` validated, `responsible` as given. */
  function Classify(dp: Object, ann: Json): (r: Object)
    ensures forall k :: k != "type" && k != "visibility" && k != "responsible" ==> Lookup(r, k) == Lookup(dp, k)
  {
    var t := Get(ann, "type");
    var r1 := if Truthy(t) then Set(dp, "type", ValidateType(t)) else dp;
    var visibility := Get(ann, "visibility");
    var r2 := if Truthy(visibility) then Set(r1, "visibility", ValidateVisibility(visibility)) else r1;
    var responsible := Get(ann, "responsible");
    if Truthy(responsible) then Set(r2, "responsible", responsible) else r2
  }

  /** Whether the version assignment throws. */
  predicate VersionThrows(dp: Object, ann: Json)
  {
    var version := Get(ann, "version");
    Truthy(version) && (!version.Str? || !Lookup(dp, "id").Str?)
  }

  /** Whether appending the annotated tags throws: the record's tags are not iterable, or a tag is null. */
  predicate TagsThrow(dp: Object, ann: Json)
  {
    var tags := Get(ann, "tags");
    Truthy(tags) && (Iterate(Lookup(dp, "tags")).Err? || ProcessTags(tags).Err?)
  }

  /** `updated.tags = [...updated.tags, ...processTags(annotation.tags)]`, then the source mark. */
  function AnnotatedTags(dp: Object, ann: Json): (p: Partial)
    ensures forall k :: k != "tags" && k != "source" ==> Lookup(p.record, k) == Lookup(dp, k)
    ensures p.thrown <==> TagsThrow(dp, ann)
    ensures !p.thrown ==> Lookup(p.record, "source") == Str(SOURCE_ANNOTATED)
  {
    var tags := Get(ann, "tags");
    if Truthy(tags) then
      var existing := Iterate(Lookup(dp, "tags"));
      var added := ProcessTags(tags);
      if existing.Err? || added.Err? then Partial(dp, true)
      else Partial(Set(Set(dp, "tags", Arr(existing.value + added.value)), "source", Str(SOURCE_ANNOTATED)), false)
    else Partial(Set(dp, "source", Str(SOURCE_ANNOTATED)), false)
  }

  /** Title, description and version: the assignments up to the first one that can throw. */
  function Prefix(dp: Object, ann: Json): (p: Partial)
    ensures forall k :: k !in {"title", "description", "version", "id"} ==> Lookup(p.record, k) == Lookup(dp, k)
    ensures p.thrown <==> VersionThrows(dp, ann)
  {
    var r := Texts(dp, ann);
    var version := Get(ann, "version");
    if Truthy(version) then ApplyVersion(r, version) else Partial(r, false)
  }

  /** The assignments of `applyServiceAnnotations`, in source order. */
  function ServiceSteps(dp: Object, ann: Json): Partial
  {
    var v := Prefix(dp, ann);
    if v.thrown then v else AnnotatedTags(Classify(v.record, ann), ann)
  }

  /** Applying the service annotation writes no key outside `SERVICE_KEYS`, even when it throws. */
  lemma ServiceStepsWrites(dp: Object, ann: Json, k: string)
    requires k !in SERVICE_KEYS
    ensures Lookup(ServiceSteps(dp, ann).record, k) == Lookup(dp, k)
  {
  }

  /**
   * The service annotation throws exactly when its version cannot be split
   * or the id cannot be rewritten, or when its tags cannot be appended.
   */
  lemma ServiceStepsThrow(dp: Object, ann: Json)
    ensures ServiceSteps(dp, ann).thrown <==> VersionThrows(dp, ann) || TagsThrow(dp, ann)
  {
    KeepsTags(dp, ann);
  }

  /** A service annotation that does not throw marks the record as annotated. */
  lemma ServiceStepsMarkSource(dp: Object, ann: Json)
    requires !ServiceSteps(dp, ann).thrown
    ensures Lookup(ServiceSteps(dp, ann).record, "source") == Str(SOURCE_ANNOTATED)
  {
  }

  /** An annotated type or visibility is validated: the record ends up with an admissible value. */
  lemma ServiceStepsValidate(dp: Object, ann: Json)
    requires !ServiceSteps(dp, ann).thrown
    ensures Truthy(Get(ann, "type")) ==> IsOneOf(Lookup(ServiceSteps(dp, ann).record, "type"), VALID_TYPES)
    ensures Truthy(Get(ann, "visibility")) ==>
              IsOneOf(Lookup(ServiceSteps(dp, ann).record, "visibility"), RESOURCE_VISIBILITIES)
  {
    var q := Classify(Prefix(dp, ann).record, ann);
    ClassifyValidates(Prefix(dp, ann).record, ann);
    assert ServiceSteps(dp, ann) == AnnotatedTags(q, ann);
    TagsStepKeeps(q, ann);
  }

  /** The tags step leaves type and visibility alone. */
  lemma TagsStepKeeps(dp: Object, ann: Json)
    ensures Lookup(AnnotatedTags(dp, ann).record, "type") == Lookup(dp, "type")
    ensures Lookup(AnnotatedTags(dp, ann).record, "visibility") == Lookup(dp, "visibility")
  {
  }

  lemma ClassifyValidates(dp: Object, ann: Json)
    ensures Truthy(Get(ann, "type")) ==> IsOneOf(Lookup(Classify(dp, ann), "type"), VALID_TYPES)
    ensures Truthy(Get(ann, "visibility")) ==> IsOneOf(Lookup(Classify(dp, ann), "visibility"), RESOURCE_VISIBILITIES)
  {
  }

  /** The annotated tags are appended after the record's own tags, in order. */
  lemma ServiceStepsAppendTags(dp: Object, ann: Json)
    requires !ServiceSteps(dp, ann).thrown && Truthy(Get(ann, "tags"))
    ensures Iterate(Lookup(dp, "tags")).Ok? && ProcessTags(Get(ann, "tags")).Ok?
    ensures Lookup(ServiceSteps(dp, ann).record, "tags")
         == Arr(Iterate(Lookup(dp, "tags")).value + ProcessTags(Get(ann, "tags")).value)
  {
    var q := Classify(Prefix(dp, ann).record, ann);
    KeepsTags(dp, ann);
    AnnotatedTagsAppend(q, ann);
  }

  /** Nothing before the tags step writes the tags. */
  lemma KeepsTags(dp: Object, ann: Json)
    ensures Lookup(Classify(Prefix(dp, ann).record, ann), "tags") == Lookup(dp, "tags")
  {
  }

  lemma AnnotatedTagsAppend(dp: Object, ann: Json)
    requires !AnnotatedTags(dp, ann).thrown && Truthy(Get(ann, "tags"))
    ensures Iterate(Lookup(dp, "tags")).Ok? && ProcessTags(Get(ann, "tags")).Ok?
    ensures Lookup(AnnotatedTags(dp, ann).record, "tags")
         == Arr(Iterate(Lookup(dp, "tags")).value + ProcessTags(Get(ann, "tags")).value)
  {
  }

  /**
   * The id after the annotation: with a version it is the record's id with
   * its version suffix replaced by `v` and the major version; otherwise it
   * is the record's own id.
   */
  lemma ServiceStepsId(dp: Object, ann: Json)
    requires !ServiceSteps(dp, ann).thrown
    ensures Truthy(Get(ann, "version")) ==>
              Get(ann, "version").Str? && Lookup(dp, "id").Str? &&
              Lookup(ServiceSteps(dp, ann).record, "id")
              == Str(ReplaceVersionSuffix(Lookup(dp, "id").s, "v" + BeforeFirst(Get(ann, "version").s, '.')))
    ensures !Truthy(Get(ann, "version")) ==> Lookup(ServiceSteps(dp, ann).record, "id") == Lookup(dp, "id")
  {
    PrefixId(dp, ann);
    var v := Prefix(dp, ann);
    assert Lookup(Classify(v.record, ann), "id") == Lookup(v.record, "id");
  }

  lemma PrefixId(dp: Object, ann: Json)
    requires !Prefix(dp, ann).thrown
    ensures Truthy(Get(ann, "version")) ==>
              Get(ann, "version").Str? && Lookup(dp, "id").Str? &&
              Lookup(Prefix(dp, ann).record, "id")
              == Str(ReplaceVersionSuffix(Lookup(dp, "id").s, "v" + BeforeFirst(Get(ann, "version").s, '.')))
    ensures !Truthy(Get(ann, "version")) ==> Lookup(Prefix(dp, ann).record, "id") == Lookup(dp, "id")
  {
    assert Lookup(Texts(dp, ann), "id") == Lookup(dp, "id");
  }

  // ---------------------------------------------------------------------------
  // Entities and their annotations
  // ---------------------------------------------------------------------------

  /** An element that refers to an entity: `element.kind === "entity" && element.target`. */
  predicate IsEntityRef(element: Json)
  {
    Get(element, "kind") == Str("entity") && Truthy(Get(element, "target"))
  }

  /** Whether looking at an element throws: it is missing, or it refers to an entity of a model without definitions. */
  predicate ElementThrows(element: Json, csn: Json)
  {
    IsNullish(element) || (IsEntityRef(element) && Definition(csn, Get(element, "target")).Err?)
  }

  /** The entity definitions the elements of a service refer to, skipping targets that are not defined. */
  function ServiceEntities(elements: seq<Field>, csn: Json): Result<seq<Json>>
  {
    if elements == [] then Ok([])
    else
      var element := elements[0].value;
      if IsNullish(element) then Err(TypeError)
      else if IsEntityRef(element) then
        var definition :- Definition(csn, Get(element, "target"));
        Prepend(if Truthy(definition) then [definition] else [], ServiceEntities(elements[1..], csn))
      else ServiceEntities(elements[1..], csn)
  }

  /** The definition an entity-referring element points to. */
  function TargetOf(element: Json, csn: Json): Json
  {
    Get(Get(csn, "definitions"), JsString(Get(element, "target")))
  }

  /** Collecting the entities throws exactly when one of the elements throws. */
  lemma {:induction false} ServiceEntitiesThrow(elements: seq<Field>, csn: Json)
    ensures ServiceEntities(elements, csn).Err? <==>
              exists i :: 0 <= i < |elements| && ElementThrows(elements[i].value, csn)
    decreases |elements|
  {
    if elements != [] {
      var tail := elements[1..];
      ServiceEntitiesThrow(tail, csn);
      assert forall i :: 0 <= i < |tail| ==> tail[i] == elements[i + 1];
      assert (exists i :: 0 <= i < |elements| && ElementThrows(elements[i].value, csn)) <==>
             ElementThrows(elements[0].value, csn) || (exists i :: 0 <= i < |tail| && ElementThrows(tail[i].value, csn)) by {
        if exists i :: 0 <= i < |elements| && ElementThrows(elements[i].value, csn) {
          var i :| 0 <= i < |elements| && ElementThrows(elements[i].value, csn);
          if i > 0 { assert tail[i - 1] == elements[i]; }
        }
      }
    }
  }

  /** Every collected entity is a defined (truthy) target of one of the elements. */
  lemma {:induction false} ServiceEntitiesDefined(elements: seq<Field>, csn: Json)
    requires ServiceEntities(elements, csn).Ok?
    ensures forall j :: 0 <= j < |ServiceEntities(elements, csn).value| ==>
              Truthy(ServiceEntities(elements, csn).value[j]) &&
              exists i :: 0 <= i < |elements| && IsEntityRef(elements[i].value) &&
                          ServiceEntities(elements, csn).value[j] == TargetOf(elements[i].value, csn)
    decreases |elements|
  {
    if elements != [] {
      var tail := elements[1..];
      var rest := ServiceEntities(tail, csn).value;
      ServiceEntitiesDefined(tail, csn);
      var r := ServiceEntities(elements, csn).value;
      var head := if IsEntityRef(elements[0].value) && Truthy(TargetOf(elements[0].value, csn)) then [TargetOf(elements[0].value, csn)] else [];
      assert r == head + rest;
      forall j | 0 <= j < |r|
        ensures Truthy(r[j]) &&
                exists i :: 0 <= i < |elements| && IsEntityRef(elements[i].value) && r[j] == TargetOf(elements[i].value, csn)
      {
        if j < |head| {
          assert Truthy(r[j]) && IsEntityRef(elements[0].value) && r[j] == TargetOf(elements[0].value, csn);
        } else {
          assert r[j] == rest[j - |head|];
          var i :| 0 <= i < |tail| && IsEntityRef(tail[i].value) && rest[j - |head|] == TargetOf(tail[i].value, csn);
          assert elements[i + 1] == tail[i];
          assert Truthy(r[j]) && IsEntityRef(elements[i + 1].value) && r[j] == TargetOf(elements[i + 1].value, csn);
        }
      }
      assert r == ServiceEntities(elements, csn).value;
    }
  }

  /** `extractServiceEntities`: the `forEach` over the service's elements. */
  method ExtractServiceEntities(service: Json, csn: Json) returns (r: Result<seq<Json>>)
    ensures r == ServiceEntities(ElementEntries(service), csn)
  {
    var elements := ElementEntries(service);
    var entities: seq<Json> := [];
    assert elements[0..] == elements;
    PrependLaws([], [], ServiceEntities(elements, csn));
    for i := 0 to |elements|
      invariant ServiceEntities(elements, csn) == Prepend(entities, ServiceEntities(elements[i..], csn))
    {
      assert elements[i..][1..] == elements[i + 1..];
      var element := elements[i].value;
      if IsNullish(element) {
        return Err(TypeError);
      }
      if IsEntityRef(element) {
        var entityDef :- Definition(csn, Get(element, "target"));
        ghost var head := if Truthy(entityDef) then [entityDef] else [];
        PrependLaws(entities, head, ServiceEntities(elements[i + 1..], csn));
        if Truthy(entityDef) {
          entities := entities + [entityDef];
        }
      }
    }
    assert elements[|elements|..] == [];
    assert entities + [] == entities;
    return Ok(entities);
  }

  /** The truthy `@ORD.tag` annotations of one entity's elements; reading one of a missing element throws. */
  function ElementTags(props: seq<Json>): Result<seq<Json>>
  {
    if props == [] then Ok([])
    else if IsNullish(props[0]) then Err(TypeError)
    else
      var tag := Get(props[0], ANN_TAG);
      Prepend(if Truthy(tag) then [tag] else [], ElementTags(props[1..]))
  }

  /** The property tags of all entities, entity by entity. */
  function PropertyTags(entities: seq<Json>): Result<seq<Json>>
  {
    if entities == [] then Ok([])
    else if IsNullish(entities[0]) then Err(TypeError)
    else
      var own :- ElementTags(ElementValues(entities[0]));
      Prepend(own, PropertyTags(entities[1..]))
  }

  /** Collecting element tags throws exactly on a missing element; every collected tag is truthy. */
  lemma {:induction false} ElementTagsSpec(props: seq<Json>)
    ensures ElementTags(props).Err? <==> exists i :: 0 <= i < |props| && IsNullish(props[i])
    ensures ElementTags(props).Ok? ==> forall j :: 0 <= j < |ElementTags(props).value| ==> Truthy(ElementTags(props).value[j])
    decreases |props|
  {
    if props != [] {
      var tail := props[1..];
      ElementTagsSpec(tail);
      assert forall i :: 0 <= i < |tail| ==> tail[i] == props[i + 1];
      if !IsNullish(props[0]) {
        assert (exists i :: 0 <= i < |props| && IsNullish(props[i])) ==> exists i :: 0 <= i < |tail| && IsNullish(tail[i]) by {
          if exists i :: 0 <= i < |props| && IsNullish(props[i]) {
            var i :| 0 <= i < |props| && IsNullish(props[i]);
            assert tail[i - 1] == props[i];
          }
        }
      }
    }
  }

  /** Property tags are all truthy, so merging them never throws because of a new tag. */
  lemma {:induction false} PropertyTagsTruthy(entities: seq<Json>)
    requires PropertyTags(entities).Ok?
    ensures forall j :: 0 <= j < |PropertyTags(entities).value| ==> Truthy(PropertyTags(entities).value[j])
    decreases |entities|
  {
    if entities != [] {
      var own := ElementTags(ElementValues(entities[0]));
      ElementTagsSpec(ElementValues(entities[0]));
      PropertyTagsTruthy(entities[1..]);
    }
  }

  /** The inner `forEach` of `extractPropertyTags`: the tags of one entity's elements. */
  method CollectElementTags(entity: Json) returns (r: Result<seq<Json>>)
    ensures r == ElementTags(ElementValues(entity))
  {
    var props := ElementValues(entity);
    var tags: seq<Json> := [];
    assert props[0..] == props;
    PrependLaws([], [], ElementTags(props));
    for i := 0 to |props|
      invariant ElementTags(props) == Prepend(tags, ElementTags(props[i..]))
    {
      assert props[i..][1..] == props[i + 1..];
      var prop := props[i];
      if IsNullish(prop) {
        return Err(TypeError);
      }
      var tag := Get(prop, ANN_TAG);
      PrependLaws(tags, if Truthy(tag) then [tag] else [], ElementTags(props[i + 1..]));
      if Truthy(tag) {
        tags := tags + [tag];
      }
    }
    assert props[|props|..] == [];
    assert tags + [] == tags;
    return Ok(tags);
  }

  /** `extractPropertyTags`: the outer `forEach` over the entities. */
  method ExtractPropertyTags(entities: seq<Json>) returns (r: Result<seq<Json>>)
    ensures r == PropertyTags(entities)
  {
    var tags: seq<Json> := [];
    assert entities[0..] == entities;
    PrependLaws([], [], PropertyTags(entities));
    for i := 0 to |entities|
      invariant PropertyTags(entities) == Prepend(tags, PropertyTags(entities[i..]))
    {
      assert entities[i..][1..] == entities[i + 1..];
      if IsNullish(entities[i]) {
        return Err(TypeError);
      }
      var own :- CollectElementTags(entities[i]);
      PrependLaws(tags, own, PropertyTags(entities[i + 1..]));
      tags := tags + own;
    }
    assert entities[|entities|..] == [];
    assert tags + [] == tags;
    return Ok(tags);
  }

  /** `entities.find(e => e[key])[key]`: the first truthy annotation, or undefined. */
  function FirstAnnotation(entities: seq<Json>, key: string): (r: Json)
    ensures Truthy(r) <==> exists i :: 0 <= i < |entities| && Truthy(Get(entities[i], key))
    ensures Truthy(r) ==> exists i :: 0 <= i < |entities| && r == Get(entities[i], key) &&
                                      forall j :: 0 <= j < i ==> !Truthy(Get(entities[j], key))
    ensures !Truthy(r) ==> r == Undef
  {
    if entities == [] then Undef
    else if Truthy(Get(entities[0], key)) then Get(entities[0], key)
    else
      var r := FirstAnnotation(entities[1..], key);
      assert forall i :: 1 <= i < |entities| ==> entities[i] == entities[1..][i - 1];
      if Truthy(r) then
        var i :| 0 <= i < |entities[1..]| && r == Get(entities[1..][i], key) &&
                 forall j :: 0 <= j < i ==> !Truthy(Get(entities[1..][j], key));
        assert r == Get(entities[i + 1], key);
        r
      else r
  }

  /** `updated.source = annotated`, in the stage; the older extractor does not mark entity annotations. */
  function Mark(dp: Object, mark: bool): (r: Object)
    ensures mark ==> Lookup(r, "source") == Str(SOURCE_ANNOTATED)
    ensures !mark ==> r == dp
    ensures forall k :: k != "source" ==> Lookup(r, k) == Lookup(dp, k)
  {
    if mark then Set(dp, "source", Str(SOURCE_ANNOTATED)) else dp
  }

  /** Schema and lineage from the first entity carrying them. */
  function SchemaAndLineage(dp: Object, entities: seq<Json>, mark: bool): (r: Object)
    ensures forall k :: k != "schema" && k != "lineage" && k != "source" ==> Lookup(r, k) == Lookup(dp, k)
  {
    var schema := FirstAnnotation(entities, ANN_SCHEMA);
    var r1 := if Truthy(schema) then Mark(Set(dp, "schema", schema), mark) else dp;
    var lineage := FirstAnnotation(entities, ANN_LINEAGE);
    if Truthy(lineage) then Mark(Set(r1, "lineage", lineage), mark) else r1
  }

  /** `mergeUniqueTags(updated.tags, propertyTags)`: the record's tags must be an array. */
  function MergeWithRecordTags(tags: Json, propertyTags: seq<Json>): (r: Result<seq<Json>>)
    ensures !tags.Arr? ==> r.Err?
    ensures tags.Arr? ==> r == MergedTags(tags.items, propertyTags)
  {
    if tags.Arr? then MergedTags(tags.items, propertyTags) else Err(TypeError)
  }

  /** The property tags merged into the record's tags, when there are any. */
  function TagStep(dp: Object, propertyTags: seq<Json>, mark: bool): (p: Partial)
    ensures forall k :: k != "tags" && k != "source" ==> Lookup(p.record, k) == Lookup(dp, k)
  {
    if |propertyTags| == 0 then Partial(dp, false)
    else
      var merged := MergeWithRecordTags(Lookup(dp, "tags"), propertyTags);
      if merged.Err? then Partial(dp, true)
      else Partial(Mark(Set(dp, "tags", Arr(merged.value)), mark), false)
  }

  /** The assignments of `enrichWithEntityAnnotations`; `mark` says whether they set the source. */
  function EntitySteps(dp: Object, service: Json, csn: Json, mark: bool): Partial
  {
    var entities := ServiceEntities(ElementEntries(service), csn);
    if entities.Err? then Partial(dp, true)
    else
      var r := SchemaAndLineage(dp, entities.value, mark);
      var propertyTags := PropertyTags(entities.value);
      if propertyTags.Err? then Partial(r, true)
      else TagStep(r, propertyTags.value, mark)
  }

  /** Entity enrichment writes no key outside `ENTITY_KEYS`, even when it throws. */
  lemma EntityStepsWrites(dp: Object, service: Json, csn: Json, mark: bool, k: string)
    requires k !in ENTITY_KEYS
    ensures Lookup(EntitySteps(dp, service, csn, mark).record, k) == Lookup(dp, k)
  {
    var entities := ServiceEntities(ElementEntries(service), csn);
    if entities.Ok? {
      assert Lookup(SchemaAndLineage(dp, entities.value, mark), k) == Lookup(dp, k);
    }
  }

  /** In particular entity enrichment keeps the id, type and visibility. */
  lemma EntityStepsKeep(dp: Object, service: Json, csn: Json, mark: bool)
    ensures Lookup(EntitySteps(dp, service, csn, mark).record, "id") == Lookup(dp, "id")
    ensures Lookup(EntitySteps(dp, service, csn, mark).record, "type") == Lookup(dp, "type")
    ensures Lookup(EntitySteps(dp, service, csn, mark).record, "visibility") == Lookup(dp, "visibility")
  {
    EntityStepsWrites(dp, service, csn, mark, "id");
    EntityStepsWrites(dp, service, csn, mark, "type");
    EntityStepsWrites(dp, service, csn, mark, "visibility");
  }

  /** Entity enrichment leaves the source as it was or marks it annotated. */
  lemma EntityStepsSource(dp: Object, service: Json, csn: Json, mark: bool)
    ensures Lookup(EntitySteps(dp, service, csn, mark).record, "source") in {Lookup(dp, "source"), Str(SOURCE_ANNOTATED)}
    ensures !mark ==> Lookup(EntitySteps(dp, service, csn, mark).record, "source") == Lookup(dp, "source")
  {
    var entities := ServiceEntities(ElementEntries(service), csn);
    if entities.Ok? {
      var r := SchemaAndLineage(dp, entities.value, mark);
      assert Lookup(r, "source") in {Lookup(dp, "source"), Str(SOURCE_ANNOTATED)};
      assert !mark ==> Lookup(r, "source") == Lookup(dp, "source");
    }
  }

  /** Schema and lineage leave the tags alone. */
  lemma SchemaAndLineageKeepsTags(dp: Object, entities: seq<Json>, mark: bool)
    ensures Lookup(SchemaAndLineage(dp, entities, mark), "tags") == Lookup(dp, "tags")
  {
  }

  /** A merge that succeeds leaves the unique merge of the record's tags with the property tags. */
  lemma TagStepMerges(dp: Object, propertyTags: seq<Json>, mark: bool)
    requires !TagStep(dp, propertyTags, mark).thrown && |propertyTags| > 0
    ensures Lookup(dp, "tags").Arr?
    ensures Lookup(TagStep(dp, propertyTags, mark).record, "tags") == Arr(UniqueMerge(Lookup(dp, "tags").items, propertyTags))
  {
  }

  /** With truthy property tags the merge throws exactly on the record's own tags. */
  lemma TagStepThrows(dp: Object, propertyTags: seq<Json>, mark: bool)
    requires |propertyTags| > 0 && forall j :: 0 <= j < |propertyTags| ==> Truthy(propertyTags[j])
    ensures TagStep(dp, propertyTags, mark).thrown <==>
              !Lookup(dp, "tags").Arr? || exists i :: 0 <= i < |Lookup(dp, "tags").items| && IsNullish(Lookup(dp, "tags").items[i])
  {
    var tags := Lookup(dp, "tags");
    if tags.Arr? {
      var all := tags.items + propertyTags;
      forall i | |tags.items| <= i < |all| ensures Truthy(all[i]) {
        assert all[i] == propertyTags[i - |tags.items|];
      }
      if exists t :: t in all && IsNullish(t) {
        var t :| t in all && IsNullish(t);
        var i :| 0 <= i < |all| && all[i] == t;
        assert i < |tags.items|;
      }
      if exists i :: 0 <= i < |tags.items| && IsNullish(tags.items[i]) {
        var i :| 0 <= i < |tags.items| && IsNullish(tags.items[i]);
        assert all[i] in all;
      }
    }
  }

  /**
   * When the entities carry property tags and the enrichment succeeds, the
   * record's tags are the unique merge of its array of tags with the
   * property tags: no key appears twice and every key of either survives.
   */
  lemma EntityStepsMergeTags(dp: Object, service: Json, csn: Json, mark: bool)
    requires !EntitySteps(dp, service, csn, mark).thrown
    requires ServiceEntities(ElementEntries(service), csn).Ok?
    requires PropertyTags(ServiceEntities(ElementEntries(service), csn).value).Ok?
    requires |PropertyTags(ServiceEntities(ElementEntries(service), csn).value).value| > 0
    ensures Lookup(dp, "tags").Arr?
    ensures Lookup(EntitySteps(dp, service, csn, mark).record, "tags")
         == Arr(UniqueMerge(Lookup(dp, "tags").items, PropertyTags(ServiceEntities(ElementEntries(service), csn).value).value))
    ensures DistinctKeys(Lookup(EntitySteps(dp, service, csn, mark).record, "tags").items)
  {
    var entities := ServiceEntities(ElementEntries(service), csn).value;
    SchemaAndLineageKeepsTags(dp, entities, mark);
    var propertyTags := PropertyTags(entities).value;
    TagStepMerges(SchemaAndLineage(dp, entities, mark), propertyTags, mark);
    UniqueMergeKeys(Lookup(dp, "tags").items, propertyTags);
  }

  /**
   * With property tags present, the merge throws exactly when the record's
   * tags are not an array or hold a null or undefined tag; the property tags
   * themselves never make it throw.
   */
  lemma EntityStepsMergeThrows(dp: Object, service: Json, csn: Json, mark: bool)
    requires ServiceEntities(ElementEntries(service), csn).Ok?
    requires PropertyTags(ServiceEntities(ElementEntries(service), csn).value).Ok?
    requires |PropertyTags(ServiceEntities(ElementEntries(service), csn).value).value| > 0
    ensures EntitySteps(dp, service, csn, mark).thrown <==>
              !Lookup(dp, "tags").Arr? || exists i :: 0 <= i < |Lookup(dp, "tags").items| && IsNullish(Lookup(dp, "tags").items[i])
  {
    var entities := ServiceEntities(ElementEntries(service), csn).value;
    SchemaAndLineageKeepsTags(dp, entities, mark);
    PropertyTagsTruthy(entities);
    TagStepThrows(SchemaAndLineage(dp, entities, mark), PropertyTags(entities).value, mark);
  }
}
