/**
 * The first stage of the chain: one default record per service definition
 * of the compiled model (lib/dataProducts/processors/DefaultsProcessor.js).
 */
module Defaults {
  import opened Js
  import opened Constants
  import opened Utils
  import opened Csn

  /** The default record of a service. */
  function InitDataProduct(serviceName: string, namespace: Json): Object
  {
    var id := GenerateDataProductId(namespace, Str(serviceName), Undef).value;
    [Field("id", Str(id)), Field("localId", Str(serviceName)), Field("title", Str(serviceName)),
     Field("description", Str(DESCRIPTION_PREFIX + serviceName)),
     Field("shortDescription", Str(DESCRIPTION_PREFIX + serviceName)),
     Field("version", Str(DEFAULT_VERSION)), Field("type", Str(DEFAULT_TYPE)),
     Field("category", Str(DEFAULT_CATEGORY)), Field("visibility", Str(DEFAULT_VISIBILITY)),
     Field("serviceName", Str(serviceName)), Field("tags", Arr([])), Field("source", Str(SOURCE_DEFAULT))]
  }

  /** A default record's id is the generated id with suffix `v1`. */
  lemma InitDataProductId(serviceName: string, namespace: Json)
    ensures Lookup(InitDataProduct(serviceName, namespace), "id") == Str(JsString(namespace) + ":dataProduct:" + serviceName + ":v1")
  {
    assert JsString(namespace) + ":dataProduct:" + serviceName + ":" + "v1"
        == JsString(namespace) + ":dataProduct:" + serviceName + ":v1";
  }

  /** A default record carries the service name as local id, title and service name. */
  lemma InitDataProductNames(serviceName: string, namespace: Json)
    ensures Lookup(InitDataProduct(serviceName, namespace), "localId") == Str(serviceName)
    ensures Lookup(InitDataProduct(serviceName, namespace), "title") == Str(serviceName)
    ensures Lookup(InitDataProduct(serviceName, namespace), "serviceName") == Str(serviceName)
  {
    var dp := InitDataProduct(serviceName, namespace);
    LookupAt(dp, 1); LookupAt(dp, 2); LookupAt(dp, 9);
  }

  /** A default record carries the prefixed description, also as short description. */
  lemma InitDataProductDescription(serviceName: string, namespace: Json)
    ensures Lookup(InitDataProduct(serviceName, namespace), "description") == Str(DESCRIPTION_PREFIX + serviceName)
    ensures Lookup(InitDataProduct(serviceName, namespace), "shortDescription") == Str(DESCRIPTION_PREFIX + serviceName)
  {
    var dp := InitDataProduct(serviceName, namespace);
    LookupAt(dp, 3); LookupAt(dp, 4);
  }

  /** A default record carries the default version and type. */
  lemma InitDataProductVersion(serviceName: string, namespace: Json)
    ensures Lookup(InitDataProduct(serviceName, namespace), "version") == Str(DEFAULT_VERSION)
    ensures Lookup(InitDataProduct(serviceName, namespace), "type") == Str(DEFAULT_TYPE)
  {
    var dp := InitDataProduct(serviceName, namespace);
    LookupAt(dp, 5); LookupAt(dp, 6);
  }

  /** A default record carries the default category and visibility. */
  lemma InitDataProductDefaults(serviceName: string, namespace: Json)
    ensures Lookup(InitDataProduct(serviceName, namespace), "category") == Str(DEFAULT_CATEGORY)
    ensures Lookup(InitDataProduct(serviceName, namespace), "visibility") == Str(DEFAULT_VISIBILITY)
  {
    var dp := InitDataProduct(serviceName, namespace);
    LookupAt(dp, 7); LookupAt(dp, 8);
  }

  /** A default record has no tags and the source "default". */
  lemma InitDataProductUntagged(serviceName: string, namespace: Json)
    ensures Lookup(InitDataProduct(serviceName, namespace), "tags") == Arr([])
    ensures Lookup(InitDataProduct(serviceName, namespace), "source") == Str(SOURCE_DEFAULT)
  {
    var dp := InitDataProduct(serviceName, namespace);
    LookupAt(dp, 10); LookupAt(dp, 11);
  }

  /** `definition.kind === "service"` */
  predicate IsService(definition: Json)
  {
    Get(definition, "kind") == Str("service")
  }

  /** The names of the service definitions, in definition order. */
  function ServiceNames(defs: seq<Field>): seq<string>
  {
    if defs == [] then []
    else (if IsService(defs[0].value) then [defs[0].key] else []) + ServiceNames(defs[1..])
  }

  /** The records the `forEach` over the definitions pushes; reading `kind` of a missing definition throws. */
  function DefaultRecords(defs: seq<Field>, namespace: Json): Result<seq<Object>>
  {
    if defs == [] then Ok([])
    else if IsNullish(defs[0].value) then Err(TypeError)
    else
      Prepend(if IsService(defs[0].value) then [InitDataProduct(defs[0].key, namespace)] else [],
              DefaultRecords(defs[1..], namespace))
  }

  /** The stage's output; the incoming records are ignored. */
  function Process(records: seq<Object>, ctx: Context): Result<seq<Object>>
  {
    var defs :- Definitions(ctx.csn);
    DefaultRecords(defs, ctx.namespace)
  }

  /**
   * The stage throws exactly when the model, its definitions or one of the
   * definitions is missing; otherwise it yields one default record per
   * service definition, in definition order, whatever records came in.
   */
  lemma {:induction false} DefaultRecordsPerService(defs: seq<Field>, namespace: Json)
    ensures DefaultRecords(defs, namespace).Err? <==> exists i :: 0 <= i < |defs| && IsNullish(defs[i].value)
    ensures DefaultRecords(defs, namespace).Ok? ==>
              |DefaultRecords(defs, namespace).value| == |ServiceNames(defs)| &&
              forall i :: 0 <= i < |ServiceNames(defs)| ==>
                DefaultRecords(defs, namespace).value[i] == InitDataProduct(ServiceNames(defs)[i], namespace)
    decreases |defs|
  {
    if defs != [] {
      var tail := defs[1..];
      DefaultRecordsPerService(tail, namespace);
      assert forall i :: 0 <= i < |tail| ==> tail[i] == defs[i + 1];
      if IsNullish(defs[0].value) {
        assert DefaultRecords(defs, namespace).Err?;
      } else {
        assert (exists i :: 0 <= i < |defs| && IsNullish(defs[i].value)) <==>
               (exists i :: 0 <= i < |tail| && IsNullish(tail[i].value)) by {
          if exists i :: 0 <= i < |defs| && IsNullish(defs[i].value) {
            var i :| 0 <= i < |defs| && IsNullish(defs[i].value);
            assert tail[i - 1] == defs[i];
          }
        }
        var head := if IsService(defs[0].value) then [InitDataProduct(defs[0].key, namespace)] else [];
        var nameHead := if IsService(defs[0].value) then [defs[0].key] else [];
        assert ServiceNames(defs) == nameHead + ServiceNames(tail);
        assert DefaultRecords(defs, namespace) == Prepend(head, DefaultRecords(tail, namespace));
      }
    }
  }

  /** Which definitions the stage turns into records, and the records' service names. */
  lemma ProcessYieldsServices(records: seq<Object>, ctx: Context)
    ensures Process(records, ctx).Err? <==>
              Definitions(ctx.csn).Err? ||
              exists i :: 0 <= i < |Definitions(ctx.csn).value| && IsNullish(Definitions(ctx.csn).value[i].value)
    ensures Process(records, ctx).Ok? ==>
              var names := ServiceNames(Definitions(ctx.csn).value);
              var rs := Process(records, ctx).value;
              |rs| == |names| &&
              forall i :: 0 <= i < |rs| ==> rs[i] == InitDataProduct(names[i], ctx.namespace)
  {
    if Definitions(ctx.csn).Ok? {
      DefaultRecordsPerService(Definitions(ctx.csn).value, ctx.namespace);
    }
  }

  /** `process`: the `forEach` over `Object.entries(csn.definitions)`, pushing a record per service. */
  method DefaultsProcess(records: seq<Object>, ctx: Context) returns (r: Result<seq<Object>>)
    ensures r == Process(records, ctx)
  {
    var defs :- Definitions(ctx.csn);
    var defaultDataProducts: seq<Object> := [];
    assert defs[0..] == defs;
    PrependLaws([], [], DefaultRecords(defs, ctx.namespace));
    for i := 0 to |defs|
      invariant DefaultRecords(defs, ctx.namespace) == Prepend(defaultDataProducts, DefaultRecords(defs[i..], ctx.namespace))
    {
      assert defs[i..][1..] == defs[i + 1..];
      var definition := defs[i].value;
      if IsNullish(definition) {
        return Err(TypeError);
      }
      ghost var head := if IsService(definition) then [InitDataProduct(defs[i].key, ctx.namespace)] else [];
      PrependLaws(defaultDataProducts, head, DefaultRecords(defs[i + 1..], ctx.namespace));
      if IsService(definition) {
        defaultDataProducts := defaultDataProducts + [InitDataProduct(defs[i].key, ctx.namespace)];
      }
    }
    assert defs[|defs|..] == [];
    assert defaultDataProducts + [] == defaultDataProducts;
    return Ok(defaultDataProducts);
  }
}
