/**
 * The entity-types stage (lib/dataProducts/processors/EntityTypesProcessor.js):
 * the entity types of a record's service, collected into an insertion-ordered
 * set from the `@ORD.entityTypes` annotation, from the entities the service
 * exposes and from the `@ORD.entityType` of every targeted entity. Each
 * record is enriched on a copy.
 */
module EntityTypes {
  import opened Js
  import opened Text
  import opened Csn
  import opened StageMap

  const ANN_ENTITY_TYPES := "@ORD.entityTypes"
  const ANN_ENTITY_TYPE := "@ORD.entityType"

  // ---------------------------------------------------------------------------
  // The insertion-ordered set
  // ---------------------------------------------------------------------------

  /** `set.add(x)`: a value already present leaves the set as it is. */
  function Add(s: seq<Json>, x: Json): (r: seq<Json>)
    ensures x in s ==> r == s
    ensures x !in s ==> r == s + [x]
  {
    if x in s then s else s + [x]
  }

  /** The set after adding `xs` in order to an empty set. */
  function Dedup(xs: seq<Json>): seq<Json>
  {
    if xs == [] then [] else Add(Dedup(xs[..|xs| - 1]), xs[|xs| - 1])
  }

  predicate NoDuplicates(s: seq<Json>)
  {
    forall i, j :: 0 <= i < j < |s| ==> s[i] != s[j]
  }

  /**
   * The set holds each added value exactly once, and adding more values
   * only appends: the values keep the order in which they were first seen.
   */
  lemma {:induction false} DedupSpec(xs: seq<Json>, k: nat)
    requires k <= |xs|
    ensures forall x :: x in Dedup(xs) <==> x in xs
    ensures NoDuplicates(Dedup(xs))
    ensures Dedup(xs[..k]) <= Dedup(xs)
    decreases |xs|
  {
    if xs != [] {
      var p := xs[..|xs| - 1];
      var x := xs[|xs| - 1];
      assert xs == p + [x];
      if k == |xs| {
        assert xs[..k] == xs;
        DedupSpec(p, |p|);
      } else {
        DedupSpec(p, k);
        assert xs[..k] == p[..k];
      }
    }
  }

  /** A list without duplicates is its own set. */
  lemma {:induction false} DedupOfDistinct(xs: seq<Json>)
    requires NoDuplicates(xs)
    ensures Dedup(xs) == xs
    decreases |xs|
  {
    if xs != [] {
      var p := xs[..|xs| - 1];
      assert NoDuplicates(p);
      DedupOfDistinct(p);
      assert xs[|xs| - 1] !in p;
      assert xs == p + [xs[|xs| - 1]];
    }
  }

  // ---------------------------------------------------------------------------
  // Where the entity types come from
  // ---------------------------------------------------------------------------

  /** `service['@ORD.entityTypes']`, a scalar taken as a list of itself. */
  function AnnotatedTypes(service: Json): seq<Json>
  {
    var types := Get(service, ANN_ENTITY_TYPES);
    if Truthy(types) then AsList(types) else []
  }

  /** The id made up for an exposed entity without an `@ORD.entityType`. */
  function SynthesizedId(namespace: Json, name: string): string
  {
    JsString(namespace) + ":entityType:" + name + ":v1"
  }

  /**
   * The first pass over one element: nothing unless its kind is `entity`;
   * then the target's `@ORD.entityType`, or an id made from the last
   * dot-separated segment of the target (the element's name when it has no
   * target). Reading the kind of a missing element throws, and so does
   * splitting a target that is not a string.
   */
  function ElementType(ctx: Context, name: string, elem: Json): Result<Option<Json>>
  {
    if IsNullish(elem) then Err(TypeError)
    else if Get(elem, "kind") != Str("entity") then Ok(None)
    else
      var target := Get(elem, "target");
      var entity :- Definition(ctx.csn, target);
      if Truthy(entity) && Truthy(Get(entity, ANN_ENTITY_TYPE)) then Ok(Some(Get(entity, ANN_ENTITY_TYPE)))
      else if !Truthy(target) then Ok(Some(Str(SynthesizedId(ctx.namespace, name))))
      else if !target.Str? then Err(TypeError)
      else Ok(Some(Str(SynthesizedId(ctx.namespace, AfterLast(target.s, '.')))))
  }

  function OptionList(o: Option<Json>): seq<Json>
  {
    match o
    case Some(x) => [x]
    case None => []
  }

  /** The first pass over the service's elements. */
  function FirstPass(ctx: Context, elements: seq<Field>): Result<seq<Json>>
  {
    if elements == [] then Ok([])
    else
      var t :- ElementType(ctx, elements[0].key, elements[0].value);
      Prepend(OptionList(t), FirstPass(ctx, elements[1..]))
  }

  /** The second pass over one element: the `@ORD.entityType` of a targeted entity. */
  function TargetType(ctx: Context, elem: Json): Result<Option<Json>>
  {
    if IsNullish(elem) then Err(TypeError)
    else
      var target := Get(elem, "target");
      if !Truthy(target) then Ok(None)
      else
        var def :- Definition(ctx.csn, target);
        if Truthy(def) && Get(def, "kind") == Str("entity") && Truthy(Get(def, ANN_ENTITY_TYPE))
        then Ok(Some(Get(def, ANN_ENTITY_TYPE)))
        else Ok(None)
  }

  /** The second pass over the service's elements. */
  function SecondPass(ctx: Context, elems: seq<Json>): Result<seq<Json>>
  {
    if elems == [] then Ok([])
    else
      var t :- TargetType(ctx, elems[0]);
      Prepend(OptionList(t), SecondPass(ctx, elems[1..]))
  }

  /** The values added to the set, in order. */
  function Candidates(service: Json, ctx: Context): Result<seq<Json>>
  {
    var first :- FirstPass(ctx, ElementEntries(service));
    var second :- SecondPass(ctx, ElementValues(service));
    Ok(AnnotatedTypes(service) + first + second)
  }

  /** The entity types of a service: the set of the candidates. */
  function EntityTypesOf(service: Json, ctx: Context): Result<seq<Json>>
  {
    var candidates :- Candidates(service, ctx);
    Ok(Dedup(candidates))
  }

  /** Adding one more value to the set. */
  lemma DedupSnoc(xs: seq<Json>, x: Json)
    ensures Dedup(xs + [x]) == Add(Dedup(xs), x)
  {
    assert (xs + [x])[..|xs|] == xs;
  }

  /** `annotatedTypes.forEach(type => entityTypes.add(type))` */
  method AddAnnotated(service: Json) returns (types: seq<Json>)
    ensures types == Dedup(AnnotatedTypes(service))
  {
    types := [];
    var annotated := AnnotatedTypes(service);
    for i := 0 to |annotated|
      invariant types == Dedup(annotated[..i])
    {
      assert annotated[..i + 1][..i] == annotated[..i];
      types := Add(types, annotated[i]);
    }
    assert annotated[..|annotated|] == annotated;
  }

  /** The first `forEach`, adding to a set that holds the values `before`. */
  method AddFirstPass(ctx: Context, entries: seq<Field>, types: seq<Json>, ghost before: seq<Json>) returns (r: Result<seq<Json>>)
    requires types == Dedup(before)
    ensures FirstPass(ctx, entries).Err? ==> r == Err(FirstPass(ctx, entries).error)
    ensures FirstPass(ctx, entries).Ok? ==> r == Ok(Dedup(before + FirstPass(ctx, entries).value))
  {
    var acc := types;
    ghost var found: seq<Json> := [];
    assert entries[0..] == entries;
    assert before + [] == before;
    PrependLaws([], [], FirstPass(ctx, entries));
    for i := 0 to |entries|
      invariant FirstPass(ctx, entries) == Prepend(found, FirstPass(ctx, entries[i..]))
      invariant acc == Dedup(before + found)
    {
      assert entries[i..][1..] == entries[i + 1..];
      var t := ElementType(ctx, entries[i].key, entries[i].value);
      if t.Err? {
        return Err(t.error);
      }
      PrependLaws(found, OptionList(t.value), FirstPass(ctx, entries[i + 1..]));
      if t.value.Some? {
        DedupSnoc(before + found, t.value.value);
        assert before + (found + [t.value.value]) == before + found + [t.value.value];
        acc := Add(acc, t.value.value);
      } else {
        assert found + [] == found;
      }
      found := found + OptionList(t.value);
    }
    assert entries[|entries|..] == [];
    assert found + [] == found;
    return Ok(acc);
  }

  /** The second `forEach`, adding to a set that holds the values `before`. */
  method AddSecondPass(ctx: Context, elems: seq<Json>, types: seq<Json>, ghost before: seq<Json>) returns (r: Result<seq<Json>>)
    requires types == Dedup(before)
    ensures SecondPass(ctx, elems).Err? ==> r == Err(SecondPass(ctx, elems).error)
    ensures SecondPass(ctx, elems).Ok? ==> r == Ok(Dedup(before + SecondPass(ctx, elems).value))
  {
    var acc := types;
    ghost var found: seq<Json> := [];
    assert elems[0..] == elems;
    assert before + [] == before;
    PrependLaws([], [], SecondPass(ctx, elems));
    for i := 0 to |elems|
      invariant SecondPass(ctx, elems) == Prepend(found, SecondPass(ctx, elems[i..]))
      invariant acc == Dedup(before + found)
    {
      assert elems[i..][1..] == elems[i + 1..];
      var t := TargetType(ctx, elems[i]);
      if t.Err? {
        return Err(t.error);
      }
      PrependLaws(found, OptionList(t.value), SecondPass(ctx, elems[i + 1..]));
      if t.value.Some? {
        DedupSnoc(before + found, t.value.value);
        assert before + (found + [t.value.value]) == before + found + [t.value.value];
        acc := Add(acc, t.value.value);
      } else {
        assert found + [] == found;
      }
      found := found + OptionList(t.value);
    }
    assert elems[|elems|..] == [];
    assert found + [] == found;
    return Ok(acc);
  }

  /** The set built by the three `forEach` loops, as a list in insertion order. */
  method CollectEntityTypes(service: Json, ctx: Context) returns (r: Result<seq<Json>>)
    ensures r == EntityTypesOf(service, ctx)
  {
    var annotated := AddAnnotated(service);
    var first := AddFirstPass(ctx, ElementEntries(service), annotated, AnnotatedTypes(service));
    if first.Err? {
      return Err(first.error);
    }
    ghost var before := AnnotatedTypes(service) + FirstPass(ctx, ElementEntries(service)).value;
    r := AddSecondPass(ctx, ElementValues(service), first.value, before);
  }

  // ---------------------------------------------------------------------------
  // The enrichment
  // ---------------------------------------------------------------------------

  /** `enrichWithEntityTypes`: the set as a list, written only when it is not empty. */
  function Enrich(dp: Object, ctx: Context): Result<Object>
  {
    var service :- ServiceOf(ctx, dp);
    if !Truthy(service) then Ok(dp)
    else
      var types :- EntityTypesOf(service, ctx);
      if |types| > 0 then Ok(Set(dp, "entityTypes", Arr(types))) else Ok(dp)
  }

  /** `process`: every record enriched, a record whose enrichment throws kept as it was. */
  function Process(records: seq<Object>, ctx: Context): seq<Object>
  {
    MapGuarded(records, dp => Enrich(dp, ctx), dp => dp)
  }

  /** Each element the first pass yields a type for contributes that type. */
  lemma {:induction false} FirstPassIncludes(ctx: Context, elements: seq<Field>)
    requires FirstPass(ctx, elements).Ok?
    ensures forall i :: 0 <= i < |elements| ==>
              ElementType(ctx, elements[i].key, elements[i].value).Ok? &&
              (ElementType(ctx, elements[i].key, elements[i].value).value.Some? ==>
                ElementType(ctx, elements[i].key, elements[i].value).value.value in FirstPass(ctx, elements).value)
    decreases |elements|
  {
    if elements != [] {
      FirstPassIncludes(ctx, elements[1..]);
      forall i | 1 <= i < |elements| ensures elements[i] == elements[1..][i - 1] { }
    }
  }

  /** Each element the second pass yields a type for contributes that type. */
  lemma {:induction false} SecondPassIncludes(ctx: Context, elems: seq<Json>)
    requires SecondPass(ctx, elems).Ok?
    ensures forall i :: 0 <= i < |elems| ==>
              TargetType(ctx, elems[i]).Ok? &&
              (TargetType(ctx, elems[i]).value.Some? ==> TargetType(ctx, elems[i]).value.value in SecondPass(ctx, elems).value)
    decreases |elems|
  {
    if elems != [] {
      SecondPassIncludes(ctx, elems[1..]);
      forall i | 1 <= i < |elems| ensures elems[i] == elems[1..][i - 1] { }
    }
  }

  /** An exposed entity without an `@ORD.entityType` gets the id made from the last segment of its target. */
  lemma SynthesizedFromTarget(ctx: Context, name: string, elem: Json, target: string)
    requires Get(elem, "kind") == Str("entity") && Get(elem, "target") == Str(target) && target != ""
    requires Definition(ctx.csn, Str(target)).Ok?
    requires var entity := Definition(ctx.csn, Str(target)).value;
             !(Truthy(entity) && Truthy(Get(entity, ANN_ENTITY_TYPE)))
    ensures ElementType(ctx, name, elem) == Ok(Some(Str(JsString(ctx.namespace) + ":entityType:" + AfterLast(target, '.') + ":v1")))
    ensures '.' !in AfterLast(target, '.')
  {
  }

  /**
   * The collected types hold no duplicates; they include every annotated
   * type, the type each exposed entity yields in the first pass and the
   * `@ORD.entityType` of each targeted entity; and they hold nothing else.
   */
  lemma EntityTypesOfSpec(service: Json, ctx: Context)
    requires EntityTypesOf(service, ctx).Ok?
    ensures NoDuplicates(EntityTypesOf(service, ctx).value)
    ensures forall x :: x in EntityTypesOf(service, ctx).value <==> x in Candidates(service, ctx).value
    ensures forall x :: x in AnnotatedTypes(service) ==> x in EntityTypesOf(service, ctx).value
    ensures forall i :: 0 <= i < |ElementEntries(service)| ==>
              var e := ElementEntries(service)[i];
              ElementType(ctx, e.key, e.value).Ok? &&
              (ElementType(ctx, e.key, e.value).value.Some? ==> ElementType(ctx, e.key, e.value).value.value in EntityTypesOf(service, ctx).value)
    ensures forall i :: 0 <= i < |ElementValues(service)| ==>
              var v := ElementValues(service)[i];
              TargetType(ctx, v).Ok? && (TargetType(ctx, v).value.Some? ==> TargetType(ctx, v).value.value in EntityTypesOf(service, ctx).value)
  {
    var c := Candidates(service, ctx).value;
    DedupSpec(c, 0);
    FirstPassIncludes(ctx, ElementEntries(service));
    SecondPassIncludes(ctx, ElementValues(service));
  }

  /** Annotated types come first, in the order they are annotated when they are distinct. */
  lemma AnnotatedFirst(service: Json, ctx: Context)
    requires EntityTypesOf(service, ctx).Ok? && NoDuplicates(AnnotatedTypes(service))
    ensures AnnotatedTypes(service) <= EntityTypesOf(service, ctx).value
  {
    var c := Candidates(service, ctx).value;
    var a := AnnotatedTypes(service);
    DedupSpec(c, |a|);
    assert c[..|a|] == a;
    DedupOfDistinct(a);
  }

  /** A successful enrichment writes the entity types when there are some and nothing else. */
  lemma EnrichWrites(dp: Object, ctx: Context)
    requires Enrich(dp, ctx).Ok? && Truthy(ServiceOf(ctx, dp).value)
    ensures var types := EntityTypesOf(ServiceOf(ctx, dp).value, ctx).value;
            Lookup(Enrich(dp, ctx).value, "entityTypes") == if |types| > 0 then Arr(types) else Lookup(dp, "entityTypes")
    ensures forall k :: k != "entityTypes" ==> Lookup(Enrich(dp, ctx).value, k) == Lookup(dp, k)
  {
  }

  /** The stage keeps the number and order of the records and every field but the entity types. */
  lemma ProcessKeepsFields(records: seq<Object>, ctx: Context, k: string)
    requires k != "entityTypes"
    ensures |Process(records, ctx)| == |records|
    ensures forall i :: 0 <= i < |records| ==> Lookup(Process(records, ctx)[i], k) == Lookup(records[i], k)
  {
    forall i | 0 <= i < |records|
      ensures Lookup(Process(records, ctx)[i], k) == Lookup(records[i], k)
    {
      if Enrich(records[i], ctx).Ok? && ServiceOf(ctx, records[i]).Ok? && Truthy(ServiceOf(ctx, records[i]).value) {
        EnrichWrites(records[i], ctx);
      }
    }
  }

  /** A record whose service is not defined, or whose enrichment throws, comes out unchanged. */
  lemma ProcessKeepsUnenriched(records: seq<Object>, ctx: Context, i: nat)
    requires i < |records|
    requires ServiceOf(ctx, records[i]).Err? || !Truthy(ServiceOf(ctx, records[i]).value) || Enrich(records[i], ctx).Err?
    ensures Process(records, ctx)[i] == records[i]
  {
  }
}
