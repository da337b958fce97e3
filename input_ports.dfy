/**
 * The input-ports stage (lib/dataProducts/processors/InputPortsProcessor.js):
 * a record's input ports from `@ORD.inputPorts`, else from
 * `@ORD.integrationDependency`, else, for a derived data product, from the
 * external sources its service draws on. Each record is enriched on a copy.
 */
module InputPorts {
  import opened Js
  import opened Text
  import opened Csn
  import opened StageMap

  const ANN_INPUT_PORTS := "@ORD.inputPorts"
  const ANN_INTEGRATION_DEPENDENCY := "@ORD.integrationDependency"
  const ANN_EXTERNAL_SOURCE := "@ORD.externalSource"
  const ANN_CONSUMES := "@ORD.consumes"
  const DEPENDENCY_MARKER := ":integrationDependency:"
  const DEFAULT_DEPENDENCY_NAME := "ExternalData"

  // ---------------------------------------------------------------------------
  // Integration dependency ids
  // ---------------------------------------------------------------------------

  /** The full id of the integration dependency `name` in a namespace. */
  function DependencyId(namespace: Json, name: string): string
  {
    JsString(namespace) + DEPENDENCY_MARKER + name + ":v1"
  }

  /**
   * `normalizeIntegrationDependencyId`: a full id as it is, a simple name
   * (no `:`) made into a full id, anything else as it is. `includes` on an
   * array looks for an equal element; on other values it is not a method
   * and the call throws.
   */
  function NormalizeId(id: Json, namespace: Json): (r: Result<Json>)
    ensures r.Err? <==> !id.Str? && !id.Arr?
  {
    match id
    case Str(s) =>
      if Contains(s, DEPENDENCY_MARKER) then Ok(id)
      else if ':' !in s then Ok(Str(DependencyId(namespace, s)))
      else Ok(id)
    case Arr(items) =>
      if Str(DEPENDENCY_MARKER) in items then Ok(id)
      else if Str(":") !in items then Ok(Str(DependencyId(namespace, JsString(id))))
      else Ok(id)
    case _ => Err(TypeError)
  }

  /** Every id made in a namespace contains the marker. */
  lemma DependencyIdIsFull(namespace: Json, name: string)
    ensures Contains(DependencyId(namespace, name), DEPENDENCY_MARKER)
  {
    var s := DependencyId(namespace, name);
    var i := |JsString(namespace)|;
    assert s[i..i + |DEPENDENCY_MARKER|] == DEPENDENCY_MARKER;
    assert OccursAt(s, DEPENDENCY_MARKER, i);
  }

  /**
   * For a string id: a full id and an id with a `:` are kept, a simple name
   * becomes `<namespace>:integrationDependency:<name>:v1`; normalizing twice
   * is normalizing once.
   */
  lemma NormalizeIdSpec(s: string, namespace: Json)
    ensures Contains(s, DEPENDENCY_MARKER) ==> NormalizeId(Str(s), namespace) == Ok(Str(s))
    ensures !Contains(s, DEPENDENCY_MARKER) && ':' in s ==> NormalizeId(Str(s), namespace) == Ok(Str(s))
    ensures ':' !in s ==> NormalizeId(Str(s), namespace) == Ok(Str(DependencyId(namespace, s)))
    ensures NormalizeId(NormalizeId(Str(s), namespace).value, namespace) == NormalizeId(Str(s), namespace)
  {
    if ':' !in s {
      forall i | 0 <= i <= |s| - |DEPENDENCY_MARKER| ensures !OccursAt(s, DEPENDENCY_MARKER, i) {
        assert s[i..i + |DEPENDENCY_MARKER|][0] == s[i];
      }
      DependencyIdIsFull(namespace, s);
    }
  }

  /** `generateIntegrationDependencyId`: named after the dependency's name, else its service. */
  function GeneratedId(dependency: Json, namespace: Json): Json
  {
    var name := Or(Or(Get(dependency, "name"), Get(dependency, "service")), Str(DEFAULT_DEPENDENCY_NAME));
    Str(DependencyId(namespace, JsString(name)))
  }

  // ---------------------------------------------------------------------------
  // The annotated ports
  // ---------------------------------------------------------------------------

  /**
   * One entry of `@ORD.inputPorts`: a string is an id; an object with an
   * `ordId` gives that id and its description; anything else is dropped.
   * `typeof null` is `'object'`, so reading `ordId` of null throws.
   */
  function PortOf(port: Json, namespace: Json): Result<Option<Json>>
  {
    if port.Str? then Ok(Some(Obj([Field("ordId", NormalizeId(port, namespace).value)])))
    else if IsObjectType(port) then
      var ordId :- Member(port, "ordId");
      if Truthy(ordId) then
        var id :- NormalizeId(ordId, namespace);
        Ok(Some(Obj([Field("ordId", id), Field("description", Get(port, "description"))])))
      else Ok(None)
    else Ok(None)
  }

  /** `inputPorts.map(...).filter(Boolean)` */
  function Ports(ports: seq<Json>, namespace: Json): Result<seq<Json>>
  {
    if ports == [] then Ok([])
    else
      var p :- PortOf(ports[0], namespace);
      Prepend(match p case Some(x) => [x] case None => [], Ports(ports[1..], namespace))
  }

  /** A port object names its dependency. */
  predicate IsPort(p: Json)
  {
    p.Obj? && |p.fields| >= 1 && p.fields[0].key == "ordId"
  }

  /**
   * A string entry gives the port of its normalized id; null throws; an
   * object with an `ordId` gives the port of that id, normalized, with the
   * object's description; every other entry gives no port.
   */
  lemma PortOfSpec(port: Json, namespace: Json)
    ensures port.Str? ==> PortOf(port, namespace) == Ok(Some(Obj([Field("ordId", NormalizeId(port, namespace).value)])))
    ensures port.Null? ==> PortOf(port, namespace).Err?
    ensures port.Obj? && Truthy(Get(port, "ordId")) ==>
              var id := NormalizeId(Get(port, "ordId"), namespace);
              PortOf(port, namespace) ==
                if id.Err? then Err(TypeError) else Ok(Some(Obj([Field("ordId", id.value), Field("description", Get(port, "description"))])))
    ensures !port.Str? && !port.Null? && !(port.Obj? && Truthy(Get(port, "ordId"))) ==> PortOf(port, namespace) == Ok(None)
    ensures forall p :: PortOf(port, namespace) == Ok(Some(p)) ==> IsPort(p)
  {
  }

  /**
   * The ports throw exactly when one entry throws; otherwise there are no
   * more ports than entries, and each entry that gives a port contributes it.
   */
  lemma {:induction false} PortsSpec(ports: seq<Json>, namespace: Json)
    ensures Ports(ports, namespace).Err? <==> exists i :: 0 <= i < |ports| && PortOf(ports[i], namespace).Err?
    ensures Ports(ports, namespace).Ok? ==> |Ports(ports, namespace).value| <= |ports|
    ensures Ports(ports, namespace).Ok? ==> forall i :: 0 <= i < |ports| && PortOf(ports[i], namespace).value.Some? ==>
              PortOf(ports[i], namespace).value.value in Ports(ports, namespace).value
    ensures Ports(ports, namespace).Ok? ==> forall p :: p in Ports(ports, namespace).value ==> IsPort(p)
    decreases |ports|
  {
    if ports != [] {
      PortsSpec(ports[1..], namespace);
      PortOfSpec(ports[0], namespace);
      assert forall i :: 1 <= i < |ports| ==> ports[1..][i - 1] == ports[i];
      if exists i :: 0 <= i < |ports| && PortOf(ports[i], namespace).Err? {
        var i :| 0 <= i < |ports| && PortOf(ports[i], namespace).Err?;
        if i > 0 {
          assert ports[1..][i - 1] == ports[i];
        }
      }
      if Ports(ports[1..], namespace).Err? {
        var i :| 0 <= i < |ports[1..]| && PortOf(ports[1..][i], namespace).Err?;
        assert ports[i + 1] == ports[1..][i];
      }
    }
  }

  /** `@ORD.integrationDependency` entries, each an id. */
  function DependencyPorts(deps: seq<Json>, namespace: Json): (r: Result<seq<Json>>)
    ensures r.Err? <==> exists i :: 0 <= i < |deps| && NormalizeId(deps[i], namespace).Err?
    ensures r.Ok? ==> |r.value| == |deps| &&
                      forall i :: 0 <= i < |deps| ==> r.value[i] == Obj([Field("ordId", NormalizeId(deps[i], namespace).value)])
  {
    if deps == [] then Ok([])
    else
      var id :- NormalizeId(deps[0], namespace);
      var rest := DependencyPorts(deps[1..], namespace);
      assert forall i :: 1 <= i < |deps| ==> deps[i] == deps[1..][i - 1];
      Prepend([Obj([Field("ordId", id)])], rest)
  }

  // ---------------------------------------------------------------------------
  // detectExternalDependencies
  // ---------------------------------------------------------------------------

  /** The dependency one element gives through its target's `@ORD.externalSource`, if any. */
  function TargetSource(csn: Json, elem: Json): Result<Option<Json>>
  {
    var target :- Member(elem, "target");
    if !Truthy(target) then Ok(None)
    else
      var def :- Definition(csn, target);
      if Truthy(def) && Truthy(Get(def, ANN_EXTERNAL_SOURCE))
      then Ok(Some(Obj([Field("name", Get(def, ANN_EXTERNAL_SOURCE)), Field("entity", target)])))
      else Ok(None)
  }

  /** The first `forEach`: a dependency for each element whose target is an external source. */
  function TargetSources(csn: Json, elems: seq<Json>): Result<seq<Json>>
  {
    if elems == [] then Ok([])
    else
      var d :- TargetSource(csn, elems[0]);
      Prepend(match d case Some(x) => [x] case None => [], TargetSources(csn, elems[1..]))
  }

  /** The second `forEach`: a dependency for each consumed service. */
  function ConsumedServices(consumed: seq<Json>): (r: seq<Json>)
    ensures |r| == |consumed|
    ensures forall i :: 0 <= i < |consumed| ==> r[i] == Obj([Field("service", consumed[i])])
  {
    seq(|consumed|, i requires 0 <= i < |consumed| => Obj([Field("service", consumed[i])]))
  }

  /** The services `@ORD.consumes` names, a scalar taken as a list of itself. */
  function Consumed(service: Json): seq<Json>
  {
    var consumes := Get(service, ANN_CONSUMES);
    if Truthy(consumes) then AsList(consumes) else []
  }

  /** The dependencies found, external sources first, then consumed services. */
  function ExternalDependencies(service: Json, csn: Json): Result<seq<Json>>
  {
    var fromTargets :- TargetSources(csn, ElementValues(service));
    Ok(fromTargets + ConsumedServices(Consumed(service)))
  }

  /** The first `forEach` of `detectExternalDependencies`. */
  method CollectTargetSources(csn: Json, elems: seq<Json>) returns (r: Result<seq<Json>>)
    ensures r == TargetSources(csn, elems)
  {
    var dependencies: seq<Json> := [];
    assert elems[0..] == elems;
    PrependLaws([], [], TargetSources(csn, elems));
    for i := 0 to |elems|
      invariant TargetSources(csn, elems) == Prepend(dependencies, TargetSources(csn, elems[i..]))
    {
      assert elems[i..][1..] == elems[i + 1..];
      var d := TargetSource(csn, elems[i]);
      if d.Err? {
        return Err(d.error);
      }
      var found := match d.value case Some(x) => [x] case None => [];
      PrependLaws(dependencies, found, TargetSources(csn, elems[i + 1..]));
      dependencies := dependencies + found;
    }
    assert elems[|elems|..] == [];
    assert dependencies + [] == dependencies;
    return Ok(dependencies);
  }

  /** `detectExternalDependencies`: the external sources, then a dependency pushed for each consumed service. */
  method DetectExternalDependencies(service: Json, csn: Json) returns (r: Result<seq<Json>>)
    ensures r == ExternalDependencies(service, csn)
  {
    var fromTargets := CollectTargetSources(csn, ElementValues(service));
    if fromTargets.Err? {
      return Err(fromTargets.error);
    }
    var dependencies := fromTargets.value;
    var consumed := Consumed(service);
    for i := 0 to |consumed|
      invariant dependencies == fromTargets.value + ConsumedServices(consumed[..i])
    {
      assert ConsumedServices(consumed[..i + 1]) == ConsumedServices(consumed[..i]) + [Obj([Field("service", consumed[i])])];
      dependencies := dependencies + [Obj([Field("service", consumed[i])])];
    }
    assert consumed[..|consumed|] == consumed;
    return Ok(dependencies);
  }

  /**
   * Each consumed service gives a dependency, after those of the external
   * sources; its generated id is named after the service, or is
   * `ExternalData` for a service that is not truthy.
   */
  lemma ConsumedIds(service: Json, csn: Json, namespace: Json, j: nat)
    requires ExternalDependencies(service, csn).Ok? && j < |Consumed(service)|
    ensures var deps := ExternalDependencies(service, csn).value;
            var n := |TargetSources(csn, ElementValues(service)).value|;
            var svc := Consumed(service)[j];
            n + j < |deps| &&
            GeneratedId(deps[n + j], namespace) ==
              Str(DependencyId(namespace, if Truthy(svc) then JsString(svc) else DEFAULT_DEPENDENCY_NAME))
  {
    var n := |TargetSources(csn, ElementValues(service)).value|;
    var deps := ExternalDependencies(service, csn).value;
    var svc := Consumed(service)[j];
    var o := [Field("service", svc)];
    assert deps[n + j] == Obj(o);
    assert o[0].key != "name" && o[1..] == [];
    assert Lookup(o, "name") == Lookup(o[1..], "name") == Undef;
    assert Get(deps[n + j], "name") == Undef;
    LookupAt(o, 0);
  }

  /** A dependency found through an external source is named after that source. */
  lemma {:induction false} TargetSourcesNamed(csn: Json, elems: seq<Json>, namespace: Json)
    requires TargetSources(csn, elems).Ok?
    ensures forall d :: d in TargetSources(csn, elems).value ==>
              Truthy(Get(d, "name")) && GeneratedId(d, namespace) == Str(DependencyId(namespace, JsString(Get(d, "name"))))
    decreases |elems|
  {
    if elems != [] {
      TargetSourcesNamed(csn, elems[1..], namespace);
      var d := TargetSource(csn, elems[0]).value;
      if d.Some? {
        var target := Get(elems[0], "target");
        var def := Definition(csn, target).value;
        LookupAt(d.value.fields, 0);
      }
    }
  }

  // ---------------------------------------------------------------------------
  // The enrichment
  // ---------------------------------------------------------------------------

  /** `@ORD.inputPorts`, when present, sets the ports (possibly to none). */
  function ExplicitStep(dp: Object, service: Json, namespace: Json): (r: Result<Object>)
    ensures var ann := Get(service, ANN_INPUT_PORTS);
            r.Err? <==> Truthy(ann) && Ports(AsList(ann), namespace).Err?
    ensures var ann := Get(service, ANN_INPUT_PORTS);
            r.Ok? ==> Lookup(r.value, "inputPorts") == if Truthy(ann) then Arr(Ports(AsList(ann), namespace).value) else Lookup(dp, "inputPorts")
    ensures r.Ok? ==> forall k :: k != "inputPorts" ==> Lookup(r.value, k) == Lookup(dp, k)
  {
    var ann := Get(service, ANN_INPUT_PORTS);
    if Truthy(ann) then
      var ports :- Ports(AsList(ann), namespace);
      Ok(Set(dp, "inputPorts", Arr(ports)))
    else Ok(dp)
  }

  /** `@ORD.integrationDependency`, only while the record has no input ports. */
  function DependencyStep(r: Object, service: Json, namespace: Json): (out: Result<Object>)
    ensures var ann := Get(service, ANN_INTEGRATION_DEPENDENCY);
            var applies := Truthy(ann) && !Truthy(Lookup(r, "inputPorts"));
            out.Err? <==> applies && DependencyPorts(AsList(ann), namespace).Err?
    ensures var ann := Get(service, ANN_INTEGRATION_DEPENDENCY);
            var applies := Truthy(ann) && !Truthy(Lookup(r, "inputPorts"));
            out.Ok? ==> Lookup(out.value, "inputPorts") ==
                          if applies then Arr(DependencyPorts(AsList(ann), namespace).value) else Lookup(r, "inputPorts")
    ensures out.Ok? ==> forall k :: k != "inputPorts" ==> Lookup(out.value, k) == Lookup(r, k)
  {
    var ann := Get(service, ANN_INTEGRATION_DEPENDENCY);
    if Truthy(ann) && !Truthy(Lookup(r, "inputPorts")) then
      var ports :- DependencyPorts(AsList(ann), namespace);
      Ok(Set(r, "inputPorts", Arr(ports)))
    else Ok(r)
  }

  /** The ports generated for detected dependencies. */
  function GeneratedPorts(deps: seq<Json>, namespace: Json): (r: seq<Json>)
    ensures |r| == |deps|
    ensures forall i :: 0 <= i < |deps| ==> r[i] == Obj([Field("ordId", GeneratedId(deps[i], namespace))])
  {
    seq(|deps|, i requires 0 <= i < |deps| => Obj([Field("ordId", GeneratedId(deps[i], namespace))]))
  }

  /** Detection, only for a derived data product that still has no input ports. */
  function DetectStep(r: Object, dp: Object, service: Json, ctx: Context): (out: Result<Object>)
    ensures var applies := !Truthy(Lookup(r, "inputPorts")) && Lookup(dp, "type") == Str("derived");
            out.Err? <==> applies && ExternalDependencies(service, ctx.csn).Err?
    ensures var applies := !Truthy(Lookup(r, "inputPorts")) && Lookup(dp, "type") == Str("derived");
            out.Ok? ==> Lookup(out.value, "inputPorts") ==
                          if applies && |ExternalDependencies(service, ctx.csn).value| > 0
                          then Arr(GeneratedPorts(ExternalDependencies(service, ctx.csn).value, ctx.namespace))
                          else Lookup(r, "inputPorts")
    ensures out.Ok? ==> forall k :: k != "inputPorts" ==> Lookup(out.value, k) == Lookup(r, k)
  {
    if !Truthy(Lookup(r, "inputPorts")) && Lookup(dp, "type") == Str("derived") then
      var deps :- ExternalDependencies(service, ctx.csn);
      if |deps| > 0 then Ok(Set(r, "inputPorts", Arr(GeneratedPorts(deps, ctx.namespace)))) else Ok(r)
    else Ok(r)
  }

  /** `enrichWithInputPorts` */
  function Enrich(dp: Object, ctx: Context): Result<Object>
  {
    var service :- ServiceOf(ctx, dp);
    if !Truthy(service) then Ok(dp)
    else
      var r :- ExplicitStep(dp, service, ctx.namespace);
      var r :- DependencyStep(r, service, ctx.namespace);
      DetectStep(r, dp, service, ctx)
  }

  /** `process`: every record enriched, a record whose enrichment throws kept as it was. */
  function Process(records: seq<Object>, ctx: Context): seq<Object>
  {
    MapGuarded(records, dp => Enrich(dp, ctx), dp => dp)
  }

  lemma EnrichIs(dp: Object, ctx: Context)
    requires Enrich(dp, ctx).Ok? && Truthy(ServiceOf(ctx, dp).value)
    ensures var service := ServiceOf(ctx, dp).value;
            var a := ExplicitStep(dp, service, ctx.namespace);
            a.Ok? && DependencyStep(a.value, service, ctx.namespace).Ok? &&
            Enrich(dp, ctx) == DetectStep(DependencyStep(a.value, service, ctx.namespace).value, dp, service, ctx)
  {
  }

  /** A successful enrichment writes nothing but the input ports. */
  lemma EnrichWrites(dp: Object, ctx: Context, k: string)
    requires Enrich(dp, ctx).Ok? && k != "inputPorts"
    ensures Lookup(Enrich(dp, ctx).value, k) == Lookup(dp, k)
  {
    if Truthy(ServiceOf(ctx, dp).value) {
      EnrichIs(dp, ctx);
    }
  }

  /**
   * Precedence: annotated input ports win, even when none survive;
   * otherwise the integration dependencies, unless the record already has
   * ports; otherwise, for a derived data product without ports, the
   * detected dependencies when there are some; otherwise the record's own.
   */
  lemma EnrichInputPorts(dp: Object, ctx: Context)
    requires Enrich(dp, ctx).Ok? && Truthy(ServiceOf(ctx, dp).value)
    ensures var service := ServiceOf(ctx, dp).value;
            var explicit := Get(service, ANN_INPUT_PORTS);
            Truthy(explicit) ==> Lookup(Enrich(dp, ctx).value, "inputPorts") == Arr(Ports(AsList(explicit), ctx.namespace).value)
    ensures var service := ServiceOf(ctx, dp).value;
            var explicit := Get(service, ANN_INPUT_PORTS);
            var deps := Get(service, ANN_INTEGRATION_DEPENDENCY);
            !Truthy(explicit) && Truthy(deps) && !Truthy(Lookup(dp, "inputPorts")) ==>
              Lookup(Enrich(dp, ctx).value, "inputPorts") == Arr(DependencyPorts(AsList(deps), ctx.namespace).value)
    ensures var service := ServiceOf(ctx, dp).value;
            var explicit := Get(service, ANN_INPUT_PORTS);
            var deps := Get(service, ANN_INTEGRATION_DEPENDENCY);
            !Truthy(explicit) && !Truthy(deps) && !Truthy(Lookup(dp, "inputPorts")) && Lookup(dp, "type") == Str("derived") ==>
              var detected := ExternalDependencies(service, ctx.csn).value;
              Lookup(Enrich(dp, ctx).value, "inputPorts") ==
                if |detected| > 0 then Arr(GeneratedPorts(detected, ctx.namespace)) else Lookup(dp, "inputPorts")
    ensures var service := ServiceOf(ctx, dp).value;
            !Truthy(Get(service, ANN_INPUT_PORTS)) && (!Truthy(Get(service, ANN_INTEGRATION_DEPENDENCY)) || Truthy(Lookup(dp, "inputPorts"))) &&
            (Truthy(Lookup(dp, "inputPorts")) || Lookup(dp, "type") != Str("derived")) ==>
              Lookup(Enrich(dp, ctx).value, "inputPorts") == Lookup(dp, "inputPorts")
  {
    EnrichIs(dp, ctx);
  }

  /** The stage keeps the number and order of the records and every field but the input ports. */
  lemma ProcessKeepsFields(records: seq<Object>, ctx: Context, k: string)
    requires k != "inputPorts"
    ensures |Process(records, ctx)| == |records|
    ensures forall i :: 0 <= i < |records| ==> Lookup(Process(records, ctx)[i], k) == Lookup(records[i], k)
  {
    forall i | 0 <= i < |records|
      ensures Lookup(Process(records, ctx)[i], k) == Lookup(records[i], k)
    {
      if Enrich(records[i], ctx).Ok? {
        EnrichWrites(records[i], ctx, k);
      }
    }
  }

  /** A record whose service is not defined, or whose enrichment throws, comes out unchanged. */
  lemma ProcessKeepsUnenriched(records: seq<Object>, ctx: Context, i: nat)
    requires i < |records|
    requires ServiceOf(ctx, records[i]).Err? || !Truthy(ServiceOf(ctx, records[i]).value) || Enrich(records[i], ctx).Err?
    ensures Process(records, ctx)[i] == records[i]
  {
  }
}
