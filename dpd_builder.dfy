/**
 * The data product descriptor of lib/dataProducts/dpd/builder.js (and its
 * copy in lib/dataProducts/dpdBuilder.js): `buildDpd(config, csn,
 * appConfig)` writes a fixed part and then, step by step, the properties
 * the configuration supplies. The clock reading `getRFC3339Date()` is a
 * parameter.
 *
 * The specification `Descriptor` lists every property `buildDpd` may write,
 * in the order it writes them (`Key`), and says for each one, block by block
 * of the source (`Values`), what is written under it: a value, nothing, or
 * the exception that computing it throws.
 */
module DpdBuilder {
  import opened Js
  import opened Text
  import opened Constants
  import opened Csn
  import Utils

  const DEFAULT_NAMESPACE := "customer.sample"
  const RESPONSIBLE_PREFIX := "sap:ach:"

  /** What one descriptor is built from: the configuration, the model, the namespace in use and the clock reading. */
  datatype Inputs = Inputs(config: Json, csn: Json, namespace: Json, timestamp: string)

  /** `appConfig?.ordNamespace || "customer.sample"` */
  function Namespace(appConfig: Json): Json
  {
    Or(Get(appConfig, "ordNamespace"), Str(DEFAULT_NAMESPACE))
  }

  /** The object literal of lines 16-29 ends before property 12. */
  const BASE_END := 12
  /** Governance and the classification lists (lines 31-72) end before property 20. */
  const CLASSIFICATION_END := 20
  /** Data protection, documentation, links and taxonomy (lines 74-110) end before property 27. */
  const PROTECTION_END := 27
  /** The part that depends on the product type (lines 112-152) ends before property 29. */
  const TYPE_END := 29
  /** The lifecycle dates (lines 154-165) end before property 32. */
  const DATES_END := 32
  /** The responsible party and the output schema (lines 167-195) complete the 34 properties. */
  const PROPERTIES := 34

  /** The key of property number `i`, in the order `buildDpd` writes them. */
  function Key(i: nat): string
  {
    if i == 0 then "$schema" else if i == 1 then "name" else if i == 2 then "version"
    else if i == 3 then "title" else if i == 4 then "description" else if i == 5 then "type"
    else if i == 6 then "visibility" else if i == 7 then "category" else if i == 8 then "status"
    else if i == 9 then "lastModified" else if i == 10 then "namespace" else if i == 11 then "ordId"
    else if i == 12 then "governance" else if i == 13 then "compliance" else if i == 14 then "industry"
    else if i == 15 then "lineOfBusiness" else if i == 16 then "countries" else if i == 17 then "labels"
    else if i == 18 then "tags" else if i == 19 then "correlationIds" else if i == 20 then "personalData"
    else if i == 21 then "dataRetention" else if i == 22 then "dataClassification"
    else if i == 23 then "systemInstanceAware" else if i == 24 then "documentationLabels"
    else if i == 25 then "links" else if i == 26 then "taxonomy" else if i == 27 then "dependsOn"
    else if i == 28 then "derivedDataProductProperties" else if i == 29 then "deprecationDate"
    else if i == 30 then "sunsetDate" else if i == 31 then "lastUpdate" else if i == 32 then "responsible"
    else if i == 33 then "outputSchema" else ""
  }

  /** `config.k && config.k.length > 0`: a list is copied only when it is non-empty. */
  function CopyList(v: Json): Option<Json>
  {
    if Truthy(v) && HasPositiveLength(v) then Some(v) else None
  }

  /** `config.k !== undefined` */
  function CopyDefined(v: Json): Option<Json>
  {
    if v.Undef? then None else Some(v)
  }

  /** `if (config.k)` */
  function CopyTruthy(v: Json): Option<Json>
  {
    if Truthy(v) then Some(v) else None
  }

  /** `${namespace}:dataProduct:${config.name}:v${config.version.split('.')[0]}` */
  function OrdIdText(namespace: Json, name: Json, version: string): string
  {
    JsString(namespace) + ":dataProduct:" + JsString(name) + ":v" + BeforeFirst(version, '.')
  }

  /** `{ policyLevel, dataClassification: dataClassification || "internal" }` */
  function Governance(governance: Json): Json
  {
    Obj([Field("policyLevel", Get(governance, "policyLevel")),
         Field("dataClassification", Or(Get(governance, "dataClassification"), Str("internal")))])
  }

  /** `items.map(f)`: the first exception `f` throws escapes. */
  function MapEach(items: seq<Json>, f: Json -> Result<Json>): (r: Result<seq<Json>>)
    ensures r.Ok? <==> forall i :: 0 <= i < |items| ==> f(items[i]).Ok?
    ensures r.Ok? ==> |r.value| == |items| && forall i :: 0 <= i < |items| ==> f(items[i]) == Ok(r.value[i])
  {
    if items == [] then Ok([])
    else
      var head :- f(items[0]);
      var rest :- MapEach(items[1..], f);
      assert forall i :: 1 <= i < |items| ==> items[i] == items[1..][i - 1];
      Ok([head] + rest)
  }

  /**
   * `v && v.length > 0 ? v.map(f) : nothing`: only arrays have `map`, so a
   * non-empty string or an object with a positive `length` throws.
   */
  function MapIfNonEmpty(v: Json, f: Json -> Result<Json>): Result<Option<seq<Json>>>
  {
    if !(Truthy(v) && HasPositiveLength(v)) then Ok(None)
    else if !v.Arr? then Err(TypeError)
    else
      var mapped :- MapEach(v.items, f);
      Ok(Some(mapped))
  }

  /** One entry of `dpd.links`; reading a property of null throws. */
  function DpdLink(link: Json): Result<Json>
  {
    if IsNullish(link) then Err(TypeError)
    else Ok(Obj([Field("type", Or(Get(link, "type"), Str("related"))),
                 Field("title", Or(Get(link, "title"), Str(""))),
                 Field("description", Or(Get(link, "description"), Str(""))),
                 Field("url", Get(link, "url"))]))
  }

  /** One input port: a port without an `ordId` stands for its own id. */
  function DpdInputPort(port: Json): Result<Json>
  {
    if IsNullish(port) then Err(TypeError)
    else Ok(Obj([Field("ordId", Or(Get(port, "ordId"), port)), Field("type", Or(Get(port, "type"), Str("api")))]))
  }

  /** One dependency taken from a data product link. */
  function DpdDependency(link: Json): Result<Json>
  {
    if IsNullish(link) then Err(TypeError)
    else Ok(Obj([Field("type", Or(Get(link, "type"), Str("source"))), Field("ordId", Get(link, "ordId"))]))
  }

  /** `Object.keys(v)` */
  function NamesOf(v: Json): seq<string>
  {
    Keys(OwnEntries(v))
  }

  /** The dataset pushed for one entity of the service. */
  function Dataset(entityName: string, product: Json): Json
  {
    Obj([Field("name", Str(entityName)), Field("type", Str("entity")),
         Field("description", Str("Entity " + entityName + " from " + JsString(product)))])
  }

  function Datasets(names: seq<string>, product: Json): (ds: seq<Json>)
    ensures |ds| == |names|
    ensures forall i :: 0 <= i < |names| ==> ds[i] == Dataset(names[i], product)
  {
    seq(|names|, i requires 0 <= i < |names| => Dataset(names[i], product))
  }

  /** `{ name, type }` for each name: the output schema's entities and events. */
  function Named(names: seq<string>, kind: string): (ns: seq<Json>)
    ensures |ns| == |names|
    ensures forall i :: 0 <= i < |names| ==> ns[i] == Obj([Field("name", Str(names[i])), Field("type", Str(kind))])
  {
    seq(|names|, i requires 0 <= i < |names| => Obj([Field("name", Str(names[i])), Field("type", Str(kind))]))
  }

  /** The entity names of `serviceDef` when it and its `entities` are truthy. */
  function EntityNames(service: Json): seq<string>
  {
    var entities := Get(service, "entities");
    if Truthy(service) && Truthy(entities) then NamesOf(entities) else []
  }

  /** `dependsOn` of a primary product; reading `csn.definitions` throws when either is missing. */
  function DependsOn(config: Json, csn: Json): Result<Json>
  {
    var service :- Definition(csn, Get(config, "name"));
    Ok(Obj([Field("datasets", Arr(Datasets(EntityNames(service), Get(config, "name")))), Field("datasources", Arr([]))]))
  }

  /** `derivedDataProductProperties` of a derived product. */
  function DerivedProperties(config: Json): Result<Json>
  {
    var ports :- MapIfNonEmpty(Get(config, "inputPorts"), DpdInputPort);
    var deps :- MapIfNonEmpty(Get(config, "dataProductLinks"), DpdDependency);
    var props := [Field("inputPorts", Arr(if ports.Some? then ports.value else [])), Field("transformer", Null)];
    Ok(Obj(if deps.Some? then props + [Field("dependencies", Arr(deps.value))] else props))
  }

  /** `outputSchema`, written when the service definition is truthy. */
  function OutputSchema(config: Json, csn: Json): Result<Option<Json>>
  {
    var service :- Definition(csn, Get(config, "name"));
    if !Truthy(service) then Ok(None)
    else
      Ok(Some(Obj(Schema(Named(EntityNames(service), "entity"), Get(service, "events")))))
  }

  /** The fields of the output schema: type `cds`, the entities, and the events when there are any. */
  function Schema(entities: seq<Json>, events: Json): Object
  {
    var schema := [Field("type", Str("cds")), Field("entities", Arr(entities))];
    if Truthy(events) then schema + [Field("events", Arr(Named(NamesOf(events), "event")))] else schema
  }

  /** What a property whose computation cannot throw writes: its value, if any. */
  function Maybe(v: Option<Json>): Result<Option<Json>>
  {
    Ok(v)
  }

  /** A value computed by something that may throw, always written when it is computed. */
  function Always(r: Result<Json>): Result<Option<Json>>
  {
    var v :- r;
    Ok(Some(v))
  }

  /** Lines 16-29: the object literal; only the `ordId` template throws, when the version has no `split`. */
  function BaseValues(src: Inputs): seq<Result<Option<Json>>>
  {
    var config := src.config;
    var version := Get(config, "version");
    [Maybe(Some(Str(FOS_SCHEMA_URL))),
     Maybe(Some(Get(config, "name"))),
     Maybe(Some(version)),
     Maybe(Some(Get(config, "title"))),
     Maybe(Some(Get(config, "description"))),
     Maybe(Some(Get(config, "type"))),
     Maybe(Some(Or(Get(config, "visibility"), Str(DEFAULT_VISIBILITY)))),
     Maybe(Some(Or(Get(config, "category"), Str(DEFAULT_CATEGORY)))),
     Maybe(Some(Or(Get(Get(config, "lifecycle"), "status"), Str(DPD_DEFAULT_STATUS)))),
     Maybe(Some(Str(src.timestamp))),
     Maybe(Some(src.namespace)),
     if version.Str? then Maybe(Some(Str(OrdIdText(src.namespace, Get(config, "name"), version.s)))) else Err(TypeError)]
  }

  /** Lines 31-72: governance, then the classification lists and labels. */
  function ClassificationValues(config: Json): seq<Result<Option<Json>>>
  {
    var governance := Get(config, "governance");
    [Maybe(if Truthy(governance) then Some(Governance(governance)) else None),
     Maybe(CopyList(Get(config, "compliance"))),
     Maybe(CopyList(Get(config, "industry"))),
     Maybe(CopyList(Get(config, "lineOfBusiness"))),
     Maybe(CopyList(Get(config, "countries"))),
     Maybe(CopyTruthy(Get(config, "labels"))),
     Maybe(CopyList(Get(config, "tags"))),
     Maybe(CopyList(Get(config, "correlationIds")))]
  }

  /** `dpd.links`: each link mapped when the list is non-empty; mapping throws for what is not an array of objects. */
  function Links(links: Json): Result<Option<Json>>
  {
    var mapped :- MapIfNonEmpty(links, DpdLink);
    Ok(if mapped.Some? then Some(Arr(mapped.value)) else None)
  }

  /** Lines 74-110: data protection, documentation labels, links and taxonomy. */
  function ProtectionValues(config: Json): seq<Result<Option<Json>>>
  {
    [Maybe(CopyDefined(Get(config, "personalData"))),
     Maybe(CopyTruthy(Get(config, "dataRetention"))),
     Maybe(CopyTruthy(Get(config, "dataClassification"))),
     Maybe(CopyDefined(Get(config, "systemInstanceAware"))),
     Maybe(CopyTruthy(Get(config, "documentationLabels"))),
     Links(Get(config, "links")),
     Maybe(CopyTruthy(Get(config, "taxonomy")))]
  }

  /** Lines 112-152: `dependsOn` for a primary product, `derivedDataProductProperties` for a derived one. */
  function TypeValues(src: Inputs): seq<Result<Option<Json>>>
  {
    var t := Get(src.config, "type");
    [if t == Str("primary") then Always(DependsOn(src.config, src.csn)) else Maybe(None),
     if t == Str("derived") then Always(DerivedProperties(src.config)) else Maybe(None)]
  }

  /** One lifecycle date, copied when the lifecycle and the date are set. */
  function LifecycleDate(config: Json, key: string): Option<Json>
  {
    var lifecycle := Get(config, "lifecycle");
    if Truthy(lifecycle) then CopyTruthy(Get(lifecycle, key)) else None
  }

  /** Lines 154-165. */
  function DateValues(config: Json): seq<Result<Option<Json>>>
  {
    [Maybe(LifecycleDate(config, "deprecationDate")),
     Maybe(LifecycleDate(config, "sunsetDate")),
     Maybe(LifecycleDate(config, "lastUpdate"))]
  }

  /** `sap:ach:${namespace.replace(/\./g, '-')}`: only a string namespace has `replace`. */
  function Responsible(namespace: Json): Result<Option<Json>>
  {
    if namespace.Str? then Maybe(Some(Str(RESPONSIBLE_PREFIX + DotsToDashes(namespace.s)))) else Err(TypeError)
  }

  /** Lines 167-195. */
  function TailValues(src: Inputs): seq<Result<Option<Json>>>
  {
    [Responsible(src.namespace), OutputSchema(src.config, src.csn)]
  }

  /**
   * What `buildDpd` writes, property by property in the order of `Key`: a
   * value, nothing, or the exception computing it throws.
   */
  function Values(src: Inputs): (ws: seq<Result<Option<Json>>>)
    ensures |ws| == PROPERTIES
  {
    BaseValues(src) + ClassificationValues(src.config) + ProtectionValues(src.config) +
    TypeValues(src) + DateValues(src.config) + TailValues(src)
  }

  /** Where each of six consecutive blocks sits in their concatenation. */
  lemma Slices<T>(a: seq<T>, b: seq<T>, c: seq<T>, d: seq<T>, e: seq<T>, f: seq<T>)
    ensures var s, i := a + b + c + d + e + f, |a| + |b|;
            s[..|a|] == a && s[|a|..i] == b && s[i..i + |c|] == c &&
            s[i + |c|..i + |c| + |d|] == d && s[i + |c| + |d|..i + |c| + |d| + |e|] == e &&
            s[i + |c| + |d| + |e|..] == f
  {
    var s, i := a + b + c + d + e + f, |a| + |b|;
    assert s == a + (b + (c + (d + (e + f))));
    assert s[|a|..] == b + (c + (d + (e + f)));
    assert s[i..] == c + (d + (e + f));
    assert s[i + |c|..] == d + (e + f);
    assert s[i + |c| + |d|..] == e + f;
  }

  /** Where each block of the source sits among the properties. */
  lemma Blocks(src: Inputs)
    ensures Values(src)[..BASE_END] == BaseValues(src)
    ensures Values(src)[BASE_END..CLASSIFICATION_END] == ClassificationValues(src.config)
    ensures Values(src)[CLASSIFICATION_END..PROTECTION_END] == ProtectionValues(src.config)
    ensures Values(src)[PROTECTION_END..TYPE_END] == TypeValues(src)
    ensures Values(src)[TYPE_END..DATES_END] == DateValues(src.config)
    ensures Values(src)[DATES_END..] == TailValues(src)
  {
    Slices(BaseValues(src), ClassificationValues(src.config), ProtectionValues(src.config),
           TypeValues(src), DateValues(src.config), TailValues(src));
  }

  /** The first `n` properties, in order, from what each one writes; the first exception escapes. */
  function Collect(ws: seq<Result<Option<Json>>>, n: nat): Result<Object>
    requires n <= |ws|
  {
    if n == 0 then Ok([])
    else
      var front :- Collect(ws, n - 1);
      var v :- ws[n - 1];
      Ok(if v.Some? then front + [Field(Key(n - 1), v.value)] else front)
  }

  /**
   * `buildDpd(config, csn, appConfig)` as a value: reading a property of a
   * null or undefined configuration throws; otherwise the 34 properties,
   * each written or not as `Values` says.
   */
  function Descriptor(config: Json, csn: Json, appConfig: Json, timestamp: string): Result<Object>
  {
    if IsNullish(config) then Err(TypeError)
    else Collect(Values(Inputs(config, csn, Namespace(appConfig), timestamp)), PROPERTIES)
  }

  // ---------------------------------------------------------------------------
  // Collecting, in general
  // ---------------------------------------------------------------------------

  /** No two properties share a key. */
  lemma KeysDistinct(i: nat, j: nat)
    requires i < j < PROPERTIES
    ensures Key(i) != Key(j)
  {
  }

  /** Once an exception escapes, later properties change nothing. */
  lemma {:induction false} CollectErrStays(ws: seq<Result<Option<Json>>>, m: nat, n: nat)
    requires m <= n <= |ws| && Collect(ws, m).Err?
    ensures Collect(ws, n) == Collect(ws, m)
    decreases n - m
  {
    if m < n {
      CollectErrStays(ws, m, n - 1);
    }
  }

  /** The first property that throws decides what collecting throws. */
  lemma {:induction false} CollectFirstErr(ws: seq<Result<Option<Json>>>, m: nat, n: nat)
    requires m < n <= |ws| && ws[m].Err? && forall i :: 0 <= i < m ==> ws[i].Ok?
    ensures Collect(ws, n) == Err(ws[m].error)
  {
    if n - 1 > m {
      CollectFirstErr(ws, m, n - 1);
    } else {
      CollectOk(ws, m);
    }
  }

  /** Collecting succeeds exactly when no property's value throws, and otherwise throws what one of them throws. */
  lemma {:induction false} CollectOk(ws: seq<Result<Option<Json>>>, n: nat)
    requires n <= |ws|
    ensures Collect(ws, n).Ok? <==> forall i :: 0 <= i < n ==> ws[i].Ok?
    ensures Collect(ws, n).Err? ==> exists i :: 0 <= i < n && ws[i] == Err(Collect(ws, n).error)
  {
    if n > 0 {
      CollectOk(ws, n - 1);
    }
  }

  /** Every collected key is the key of one of the first `n` properties, and no key appears twice. */
  lemma {:induction false} CollectKeys(ws: seq<Result<Option<Json>>>, n: nat)
    requires n <= |ws| && n <= PROPERTIES && Collect(ws, n).Ok?
    ensures forall f :: f in Collect(ws, n).value ==> exists j :: 0 <= j < n && f.key == Key(j)
    ensures UniqueKeys(Collect(ws, n).value)
  {
    if n > 0 {
      var last := n - 1;
      CollectKeys(ws, last);
      var fs := Collect(ws, last).value;
      var fs' := Collect(ws, n).value;
      if fs' != fs {
        assert fs' == fs + [Field(Key(last), ws[last].value.value)];
        forall x, y | 0 <= x < y < |fs'| ensures fs'[x].key != fs'[y].key {
          if y == |fs| {
            assert fs[x] in fs;
            var j :| 0 <= j < last && fs[x].key == Key(j);
            KeysDistinct(j, last);
          } else {
            assert fs'[x] == fs[x] && fs'[y] == fs[y];
          }
        }
        forall f | f in fs' ensures exists j :: 0 <= j < n && f.key == Key(j) {
          if f !in fs {
            assert f.key == Key(last);
          }
        }
      }
    }
  }

  /**
   * The collected object holds a property exactly for the written
   * properties among the first `n`, with the value written.
   */
  lemma {:induction false} CollectLookup(ws: seq<Result<Option<Json>>>, n: nat, i: nat)
    requires n <= |ws| && n <= PROPERTIES && Collect(ws, n).Ok? && i < PROPERTIES
    ensures HasKey(Collect(ws, n).value, Key(i)) <==> i < n && ws[i].Ok? && ws[i].value.Some?
    ensures Lookup(Collect(ws, n).value, Key(i)) == if i < n && ws[i].Ok? && ws[i].value.Some? then ws[i].value.value else Undef
  {
    if n > 0 {
      var last := n - 1;
      CollectLookup(ws, last, i);
      var fs := Collect(ws, last).value;
      var fs' := Collect(ws, n).value;
      if fs' != fs {
        var f := Field(Key(last), ws[last].value.value);
        assert fs' == fs + [f];
        if i == last {
          HasKeySnoc(fs, f, Key(i));
          CollectKeys(ws, last);
          forall x | 0 <= x < |fs| ensures fs[x].key != Key(last) {
            assert fs[x] in fs;
            var j :| 0 <= j < last && fs[x].key == Key(j);
            KeysDistinct(j, last);
          }
          LookupConcat(fs, [f], Key(i));
        } else {
          if i < last {
            KeysDistinct(i, last);
          } else {
            KeysDistinct(last, i);
          }
          HasKeySnoc(fs, f, Key(i));
          LookupSnoc(fs, f, Key(i));
        }
      } else if i == last {
        CollectOk(ws, n);
      }
    }
  }

  /** Properties written with the given fields, in order, collect to exactly those fields. */
  lemma {:induction false} CollectWritten(ws: seq<Result<Option<Json>>>, fs: Object)
    requires |fs| <= |ws|
    requires forall i :: 0 <= i < |fs| ==> ws[i] == Ok(Some(fs[i].value)) && fs[i].key == Key(i)
    ensures Collect(ws, |fs|) == Ok(fs)
  {
    if fs != [] {
      var front := fs[..|fs| - 1];
      CollectWritten(ws, front);
      assert front + [fs[|fs| - 1]] == fs;
    }
  }

  /** Property `n` is not written: the collected object stays as it is. */
  lemma Absent(ws: seq<Result<Option<Json>>>, n: nat, dpd: Object)
    requires n < |ws| && Collect(ws, n) == Ok(dpd) && ws[n] == Ok(None)
    ensures Collect(ws, n + 1) == Ok(dpd)
  {
  }

  /** Property `n` throws: the exception escapes through every later property. */
  lemma Throws(ws: seq<Result<Option<Json>>>, n: nat, dpd: Object, m: nat)
    requires n < m <= |ws| && Collect(ws, n) == Ok(dpd) && ws[n].Err?
    ensures Collect(ws, m) == Err(ws[n].error)
  {
    CollectErrStays(ws, n + 1, m);
  }

  // ---------------------------------------------------------------------------
  // Exceptions
  // ---------------------------------------------------------------------------

  /** A map whose function only throws TypeError throws only TypeError. */
  lemma MapThrowsTypeError(v: Json, f: Json -> Result<Json>)
    requires forall x :: f(x).Err? ==> f(x).error == TypeError
    ensures MapIfNonEmpty(v, f).Err? ==> MapIfNonEmpty(v, f).error == TypeError
  {
    if v.Arr? {
      MapEachThrowsTypeError(v.items, f);
    }
  }

  lemma {:induction false} MapEachThrowsTypeError(items: seq<Json>, f: Json -> Result<Json>)
    requires forall x :: f(x).Err? ==> f(x).error == TypeError
    ensures MapEach(items, f).Err? ==> MapEach(items, f).error == TypeError
  {
    if items != [] {
      MapEachThrowsTypeError(items[1..], f);
    }
  }

  // ---------------------------------------------------------------------------
  // buildDpd, step by step
  // ---------------------------------------------------------------------------

  /** The object literal of lines 16-29, once the version is known to be a string. */
  function BaseFields(src: Inputs, version: string): Object
  {
    var config := src.config;
    [Field("$schema", Str(FOS_SCHEMA_URL)),
     Field("name", Get(config, "name")),
     Field("version", Get(config, "version")),
     Field("title", Get(config, "title")),
     Field("description", Get(config, "description")),
     Field("type", Get(config, "type")),
     Field("visibility", Or(Get(config, "visibility"), Str(DEFAULT_VISIBILITY))),
     Field("category", Or(Get(config, "category"), Str(DEFAULT_CATEGORY))),
     Field("status", Or(Get(Get(config, "lifecycle"), "status"), Str(DPD_DEFAULT_STATUS))),
     Field("lastModified", Str(src.timestamp)),
     Field("namespace", src.namespace),
     Field("ordId", Str(OrdIdText(src.namespace, Get(config, "name"), version)))]
  }

  /** The literal's keys are properties 0-11. */
  lemma BaseFieldKeys(src: Inputs, version: string)
    ensures forall i :: 0 <= i < BASE_END ==> BaseFields(src, version)[i].key == Key(i)
  {
  }

  /** The literal's values are what properties 0-11 write. */
  lemma BaseFieldValues(ws: seq<Result<Option<Json>>>, src: Inputs)
    requires |ws| >= BASE_END && ws[..BASE_END] == BaseValues(src) && Get(src.config, "version").Str?
    ensures forall i :: 0 <= i < BASE_END ==> ws[i] == Ok(Some(BaseFields(src, Get(src.config, "version").s)[i].value))
  {
    forall i | 0 <= i < BASE_END ensures ws[i] == Ok(Some(BaseFields(src, Get(src.config, "version").s)[i].value)) {
      assert ws[i] == BaseValues(src)[i];
    }
  }

  lemma BaseCollected(ws: seq<Result<Option<Json>>>, src: Inputs)
    requires |ws| >= BASE_END && ws[..BASE_END] == BaseValues(src) && Get(src.config, "version").Str?
    ensures Collect(ws, BASE_END) == Ok(BaseFields(src, Get(src.config, "version").s))
  {
    BaseFieldKeys(src, Get(src.config, "version").s);
    BaseFieldValues(ws, src);
    CollectWritten(ws, BaseFields(src, Get(src.config, "version").s));
  }

  /** `if (present) dpd[key] = value`: property number `n` is written when it has a value. */
  method Put(ghost ws: seq<Result<Option<Json>>>, n: nat, dpd: Object, v: Option<Json>) returns (r: Object)
    requires n < |ws| && Collect(ws, n) == Ok(dpd) && ws[n] == Ok(v)
    ensures Collect(ws, n + 1) == Ok(r)
  {
    if v.Some? {
      r := dpd + [Field(Key(n), v.value)];
    } else {
      r := dpd;
    }
  }

  /** Lines 31-52: governance, compliance, industry and line of business. */
  method AddGovernance(ghost ws: seq<Result<Option<Json>>>, src: Inputs, dpd: Object) returns (r: Object)
    requires |ws| == PROPERTIES && ws[BASE_END..CLASSIFICATION_END] == ClassificationValues(src.config)
    requires Collect(ws, BASE_END) == Ok(dpd)
    ensures Collect(ws, 16) == Ok(r)
  {
    var config := src.config;
    var governance := Get(config, "governance");
    assert ws[12] == Ok(if Truthy(governance) then Some(Governance(governance)) else None) &&
           ws[13] == Ok(CopyList(Get(config, "compliance"))) && ws[14] == Ok(CopyList(Get(config, "industry"))) &&
           ws[15] == Ok(CopyList(Get(config, "lineOfBusiness"))) by {
      var c := ClassificationValues(config);
      assert ws[12] == c[0] && ws[13] == c[1] && ws[14] == c[2] && ws[15] == c[3];
    }
    r := Put(ws, 12, dpd, if Truthy(governance) then Some(Governance(governance)) else None);
    r := Put(ws, 13, r, CopyList(Get(config, "compliance")));
    r := Put(ws, 14, r, CopyList(Get(config, "industry")));
    r := Put(ws, 15, r, CopyList(Get(config, "lineOfBusiness")));
  }

  /** Lines 54-72: countries, labels, tags and correlation ids. */
  method AddClassification(ghost ws: seq<Result<Option<Json>>>, src: Inputs, dpd: Object) returns (r: Object)
    requires |ws| == PROPERTIES && ws[BASE_END..CLASSIFICATION_END] == ClassificationValues(src.config)
    requires Collect(ws, 16) == Ok(dpd)
    ensures Collect(ws, CLASSIFICATION_END) == Ok(r)
  {
    var config := src.config;
    assert ws[16] == Ok(CopyList(Get(config, "countries"))) && ws[17] == Ok(CopyTruthy(Get(config, "labels"))) &&
           ws[18] == Ok(CopyList(Get(config, "tags"))) && ws[19] == Ok(CopyList(Get(config, "correlationIds"))) by {
      var c := ClassificationValues(config);
      assert ws[16] == c[4] && ws[17] == c[5] && ws[18] == c[6] && ws[19] == c[7];
    }
    r := Put(ws, 16, dpd, CopyList(Get(config, "countries")));
    r := Put(ws, 17, r, CopyTruthy(Get(config, "labels")));
    r := Put(ws, 18, r, CopyList(Get(config, "tags")));
    r := Put(ws, 19, r, CopyList(Get(config, "correlationIds")));
  }

  /** Lines 74-95: the data protection properties, the system-instance flag and the documentation labels. */
  method AddProtection(ghost ws: seq<Result<Option<Json>>>, src: Inputs, dpd: Object) returns (r: Object)
    requires |ws| == PROPERTIES && ws[CLASSIFICATION_END..PROTECTION_END] == ProtectionValues(src.config)
    requires Collect(ws, CLASSIFICATION_END) == Ok(dpd)
    ensures Collect(ws, 25) == Ok(r)
  {
    var config := src.config;
    assert ws[20] == Ok(CopyDefined(Get(config, "personalData"))) && ws[21] == Ok(CopyTruthy(Get(config, "dataRetention"))) &&
           ws[22] == Ok(CopyTruthy(Get(config, "dataClassification"))) && ws[23] == Ok(CopyDefined(Get(config, "systemInstanceAware"))) &&
           ws[24] == Ok(CopyTruthy(Get(config, "documentationLabels"))) by {
      var p := ProtectionValues(config);
      assert ws[20] == p[0] && ws[21] == p[1] && ws[22] == p[2] && ws[23] == p[3] && ws[24] == p[4];
    }
    r := Put(ws, 20, dpd, CopyDefined(Get(config, "personalData")));
    r := Put(ws, 21, r, CopyTruthy(Get(config, "dataRetention")));
    r := Put(ws, 22, r, CopyTruthy(Get(config, "dataClassification")));
    r := Put(ws, 23, r, CopyDefined(Get(config, "systemInstanceAware")));
    r := Put(ws, 24, r, CopyTruthy(Get(config, "documentationLabels")));
  }

  /** Lines 97-110: the links, each one mapped, and the taxonomy. */
  method AddLinksAndTaxonomy(ghost ws: seq<Result<Option<Json>>>, src: Inputs, dpd: Object) returns (r: Result<Object>)
    requires |ws| == PROPERTIES && ws[CLASSIFICATION_END..PROTECTION_END] == ProtectionValues(src.config)
    requires Collect(ws, 25) == Ok(dpd)
    ensures r == Collect(ws, PROTECTION_END)
  {
    var config := src.config;
    var fs := dpd;
    var links := Get(config, "links");
    if Truthy(links) && HasPositiveLength(links) {
      if !links.Arr? {
        Throws(ws, 25, dpd, PROTECTION_END);
        return Err(TypeError);
      }
      var mapped := MapEach(links.items, DpdLink);
      if mapped.Err? {
        Throws(ws, 25, dpd, PROTECTION_END);
        return Err(mapped.error);
      }
      fs := Put(ws, 25, fs, Some(Arr(mapped.value)));
    } else {
      Absent(ws, 25, fs);
    }
    fs := Put(ws, 26, fs, CopyTruthy(Get(config, "taxonomy")));
    r := Ok(fs);
  }

  /** The datasets of lines 122-130: one pushed per entity of the service. */
  method CollectDatasets(names: seq<string>, product: Json) returns (datasets: seq<Json>)
    ensures datasets == Datasets(names, product)
  {
    datasets := [];
    var i := 0;
    while i < |names|
      invariant 0 <= i <= |names|
      invariant datasets == Datasets(names[..i], product)
    {
      datasets := datasets + [Dataset(names[i], product)];
      i := i + 1;
    }
    assert names[..i] == names;
  }

  /** The output schema's entities of lines 179-186: one pushed per entity of the service. */
  method CollectSchemaEntities(names: seq<string>) returns (entities: seq<Json>)
    ensures entities == Named(names, "entity")
  {
    entities := [];
    var i := 0;
    while i < |names|
      invariant 0 <= i <= |names|
      invariant entities == Named(names[..i], "entity")
    {
      entities := entities + [Obj([Field("name", Str(names[i])), Field("type", Str("entity"))])];
      i := i + 1;
    }
    assert names[..i] == names;
  }

  /** Lines 115-130: `dependsOn` of a primary product, the datasets pushed one by one. */
  method BuildDependsOn(config: Json, csn: Json) returns (r: Result<Json>)
    ensures r == DependsOn(config, csn)
  {
    var service := Definition(csn, Get(config, "name"));
    if service.Err? {
      return Err(service.error);
    }
    var datasets: seq<Json> := [];
    var entities := Get(service.value, "entities");
    if Truthy(service.value) && Truthy(entities) {
      datasets := CollectDatasets(NamesOf(entities), Get(config, "name"));
    }
    r := Ok(Obj([Field("datasets", Arr(datasets)), Field("datasources", Arr([]))]));
  }

  /** Lines 133-151: `derivedDataProductProperties` of a derived product. */
  method BuildDerivedProperties(config: Json) returns (r: Result<Json>)
    ensures r == DerivedProperties(config)
  {
    var ports: seq<Json> := [];
    var inputPorts := Get(config, "inputPorts");
    if Truthy(inputPorts) && HasPositiveLength(inputPorts) {
      if !inputPorts.Arr? {
        return Err(TypeError);
      }
      var mapped := MapEach(inputPorts.items, DpdInputPort);
      if mapped.Err? {
        return Err(mapped.error);
      }
      ports := mapped.value;
    }
    var props := [Field("inputPorts", Arr(ports)), Field("transformer", Null)];
    var links := Get(config, "dataProductLinks");
    if Truthy(links) && HasPositiveLength(links) {
      if !links.Arr? {
        return Err(TypeError);
      }
      var mapped := MapEach(links.items, DpdDependency);
      if mapped.Err? {
        return Err(mapped.error);
      }
      props := props + [Field("dependencies", Arr(mapped.value))];
    }
    r := Ok(Obj(props));
  }

  /** Lines 113-130: a primary product depends on the datasets of its service. */
  method AddDependsOn(ghost ws: seq<Result<Option<Json>>>, src: Inputs, dpd: Object) returns (r: Result<Object>)
    requires |ws| == PROPERTIES && ws[27] == Always(DependsOn(src.config, src.csn)) && ws[28] == Ok(None)
    requires Collect(ws, PROTECTION_END) == Ok(dpd)
    ensures r == Collect(ws, TYPE_END)
  {
    var deps := BuildDependsOn(src.config, src.csn);
    if deps.Err? {
      Throws(ws, 27, dpd, TYPE_END);
      return Err(deps.error);
    }
    var fs := Put(ws, 27, dpd, Some(deps.value));
    Absent(ws, 28, fs);
    r := Ok(fs);
  }

  /** Lines 131-152: a derived product lists its input ports and dependencies. */
  method AddDerivedProperties(ghost ws: seq<Result<Option<Json>>>, src: Inputs, dpd: Object) returns (r: Result<Object>)
    requires |ws| == PROPERTIES && ws[PROTECTION_END..TYPE_END] == TypeValues(src)
    requires Collect(ws, PROTECTION_END) == Ok(dpd) && Get(src.config, "type") == Str("derived")
    ensures r == Collect(ws, TYPE_END)
  {
    Absent(ws, 27, dpd);
    var props := BuildDerivedProperties(src.config);
    if props.Err? {
      Throws(ws, 28, dpd, TYPE_END);
      return Err(props.error);
    }
    var fs := Put(ws, 28, dpd, Some(props.value));
    r := Ok(fs);
  }

  /** Lines 112-152: `dependsOn` for a primary product, `derivedDataProductProperties` for a derived one. */
  method AddTypeProperties(ghost ws: seq<Result<Option<Json>>>, src: Inputs, dpd: Object) returns (r: Result<Object>)
    requires |ws| == PROPERTIES && ws[PROTECTION_END..TYPE_END] == TypeValues(src)
    requires Collect(ws, PROTECTION_END) == Ok(dpd)
    ensures r == Collect(ws, TYPE_END)
  {
    var t := Get(src.config, "type");
    if t == Str("primary") {
      assert ws[27] == TypeValues(src)[0] && ws[28] == TypeValues(src)[1];
      r := AddDependsOn(ws, src, dpd);
    } else if t == Str("derived") {
      r := AddDerivedProperties(ws, src, dpd);
    } else {
      Absent(ws, 27, dpd);
      Absent(ws, 28, dpd);
      r := Ok(dpd);
    }
  }

  /** Lines 154-165: the lifecycle dates that are set. */
  method AddLifecycleDates(ghost ws: seq<Result<Option<Json>>>, src: Inputs, dpd: Object) returns (r: Object)
    requires |ws| == PROPERTIES && ws[TYPE_END..DATES_END] == DateValues(src.config)
    requires Collect(ws, TYPE_END) == Ok(dpd)
    ensures Collect(ws, DATES_END) == Ok(r)
  {
    var lifecycle := Get(src.config, "lifecycle");
    r := dpd;
    if Truthy(lifecycle) {
      r := Put(ws, 29, r, CopyTruthy(Get(lifecycle, "deprecationDate")));
      r := Put(ws, 30, r, CopyTruthy(Get(lifecycle, "sunsetDate")));
      r := Put(ws, 31, r, CopyTruthy(Get(lifecycle, "lastUpdate")));
    } else {
      Absent(ws, 29, r);
      Absent(ws, 30, r);
      Absent(ws, 31, r);
    }
  }

  /** Lines 171-195: the output schema, the entities pushed one by one, when the service is defined. */
  method BuildOutputSchema(config: Json, csn: Json) returns (r: Result<Option<Json>>)
    ensures r == OutputSchema(config, csn)
  {
    var service := Definition(csn, Get(config, "name"));
    if service.Err? {
      return Err(service.error);
    }
    if !Truthy(service.value) {
      return Ok(None);
    }
    var entities: seq<Json> := [];
    var serviceEntities := Get(service.value, "entities");
    if Truthy(serviceEntities) {
      entities := CollectSchemaEntities(NamesOf(serviceEntities));
    }
    var schema := [Field("type", Str("cds")), Field("entities", Arr(entities))];
    var events := Get(service.value, "events");
    if Truthy(events) {
      schema := schema + [Field("events", Arr(Named(NamesOf(events), "event")))];
    }
    r := Ok(Some(Obj(schema)));
  }

  /** Lines 167-195: the responsible party, then the output schema. */
  method AddResponsibleAndSchema(ghost ws: seq<Result<Option<Json>>>, src: Inputs, dpd: Object) returns (r: Result<Object>)
    requires |ws| == PROPERTIES && ws[DATES_END..] == TailValues(src)
    requires Collect(ws, DATES_END) == Ok(dpd)
    ensures r == Collect(ws, PROPERTIES)
  {
    if !src.namespace.Str? {
      Throws(ws, 32, dpd, PROPERTIES);
      return Err(TypeError);
    }
    var fs := Put(ws, 32, dpd, Some(Str(RESPONSIBLE_PREFIX + DotsToDashes(src.namespace.s))));
    var schema := BuildOutputSchema(src.config, src.csn);
    if schema.Err? {
      Throws(ws, 33, fs, PROPERTIES);
      return Err(schema.error);
    }
    fs := Put(ws, 33, fs, schema.value);
    r := Ok(fs);
  }

  /** A version that is not a string has no `split`: the `ordId` template throws. */
  lemma VersionThrows(src: Inputs)
    requires !Get(src.config, "version").Str?
    ensures Collect(Values(src), PROPERTIES) == Err(TypeError)
  {
    var ws, b := Values(src), BaseValues(src);
    assert forall i :: 0 <= i < BASE_END - 1 ==> b[i].Ok?;
    assert b[11] == Err(TypeError);
    Blocks(src);
    assert forall i :: 0 <= i < BASE_END ==> ws[i] == b[i] by {
      forall i | 0 <= i < BASE_END ensures ws[i] == b[i] {
        assert ws[i] == ws[..BASE_END][i];
      }
    }
    CollectFirstErr(ws, BASE_END - 1, PROPERTIES);
  }

  /** `buildDpd(config, csn, appConfig)` with the clock reading `timestamp`. */
  method BuildDpd(config: Json, csn: Json, appConfig: Json, timestamp: string) returns (r: Result<Object>)
    ensures r == Descriptor(config, csn, appConfig, timestamp)
  {
    if IsNullish(config) {
      return Err(TypeError);
    }
    var namespace := Or(Get(appConfig, "ordNamespace"), Str(DEFAULT_NAMESPACE));
    var src := Inputs(config, csn, namespace, timestamp);
    var version := Get(config, "version");
    if !version.Str? {
      VersionThrows(src);
      return Err(TypeError);
    }
    var dpd := BaseFields(src, version.s);
    Blocks(src);
    BaseCollected(Values(src), src);
    r := AddRest(Values(src), src, dpd);
  }

  /** Lines 31-195: every property after the object literal, in order; the first exception escapes. */
  method AddRest(ghost ws: seq<Result<Option<Json>>>, src: Inputs, dpd: Object) returns (r: Result<Object>)
    requires |ws| == PROPERTIES && Collect(ws, BASE_END) == Ok(dpd)
    requires ws[BASE_END..CLASSIFICATION_END] == ClassificationValues(src.config)
    requires ws[CLASSIFICATION_END..PROTECTION_END] == ProtectionValues(src.config)
    requires ws[PROTECTION_END..TYPE_END] == TypeValues(src)
    requires ws[TYPE_END..DATES_END] == DateValues(src.config)
    requires ws[DATES_END..] == TailValues(src)
    ensures r == Collect(ws, PROPERTIES)
  {
    var fs := AddGovernance(ws, src, dpd);
    fs := AddClassification(ws, src, fs);
    fs := AddProtection(ws, src, fs);
    var linked := AddLinksAndTaxonomy(ws, src, fs);
    if linked.Err? {
      CollectErrStays(ws, PROTECTION_END, PROPERTIES);
      return linked;
    }
    var typed := AddTypeProperties(ws, src, linked.value);
    if typed.Err? {
      CollectErrStays(ws, TYPE_END, PROPERTIES);
      return typed;
    }
    fs := AddLifecycleDates(ws, src, typed.value);
    r := AddResponsibleAndSchema(ws, src, fs);
  }

  // ---------------------------------------------------------------------------
  // What the descriptor holds
  // ---------------------------------------------------------------------------

  /** No property of `ws` throws. */
  predicate AllOk(ws: seq<Result<Option<Json>>>)
  {
    forall i :: 0 <= i < |ws| ==> ws[i].Ok?
  }

  lemma AllOkConcat(a: seq<Result<Option<Json>>>, b: seq<Result<Option<Json>>>)
    ensures AllOk(a + b) <==> AllOk(a) && AllOk(b)
  {
    if AllOk(a) && AllOk(b) {
      forall i | 0 <= i < |a + b| ensures (a + b)[i].Ok? {
        if i >= |a| {
          assert (a + b)[i] == b[i - |a|];
        }
      }
    }
    if AllOk(a + b) {
      forall i | 0 <= i < |a| ensures a[i].Ok? {
        assert (a + b)[i] == a[i];
      }
      forall i | 0 <= i < |b| ensures b[i].Ok? {
        assert (a + b)[|a| + i] == b[i];
      }
    }
  }

  /** The links are mapped unless the list is non-empty and is not an array of objects. */
  lemma LinksOk(links: Json)
    ensures Links(links).Ok? <==>
            !(Truthy(links) && HasPositiveLength(links)) ||
            (links.Arr? && forall i :: 0 <= i < |links.items| ==> !IsNullish(links.items[i]))
    ensures Links(links) == Ok(None) <==> !(Truthy(links) && HasPositiveLength(links))
  {
  }

  /** Mapped links: one entry per link, each mapped by `DpdLink`. */
  lemma LinksMapped(links: Json, v: Json)
    requires Links(links) == Ok(Some(v))
    ensures links.Arr? && v.Arr? && |v.items| == |links.items|
    ensures forall j :: 0 <= j < |links.items| ==> DpdLink(links.items[j]) == Ok(v.items[j])
  {
    var mapped := MapEach(links.items, DpdLink);
    assert mapped.Ok? && v == Arr(mapped.value);
  }

  /** What each block throws is a TypeError, and when it throws. */
  predicate OnlyTypeErrors(ws: seq<Result<Option<Json>>>)
  {
    forall i :: 0 <= i < |ws| && ws[i].Err? ==> ws[i].error == TypeError
  }

  lemma OnlyTypeErrorsConcat(a: seq<Result<Option<Json>>>, b: seq<Result<Option<Json>>>)
    requires OnlyTypeErrors(a) && OnlyTypeErrors(b)
    ensures OnlyTypeErrors(a + b)
  {
    forall i | 0 <= i < |a + b| && (a + b)[i].Err? ensures (a + b)[i].error == TypeError {
      if i >= |a| {
        assert (a + b)[i] == b[i - |a|];
      }
    }
  }

  lemma AllOkBlocks(b: seq<Result<Option<Json>>>, c: seq<Result<Option<Json>>>, p: seq<Result<Option<Json>>>,
                    t: seq<Result<Option<Json>>>, d: seq<Result<Option<Json>>>, e: seq<Result<Option<Json>>>)
    ensures AllOk(b + c + p + t + d + e) <==> AllOk(b) && AllOk(c) && AllOk(p) && AllOk(t) && AllOk(d) && AllOk(e)
  {
    AllOkConcat(b, c);
    AllOkConcat(b + c, p);
    AllOkConcat(b + c + p, t);
    AllOkConcat(b + c + p + t, d);
    AllOkConcat(b + c + p + t + d, e);
  }

  lemma OnlyTypeErrorsBlocks(b: seq<Result<Option<Json>>>, c: seq<Result<Option<Json>>>, p: seq<Result<Option<Json>>>,
                             t: seq<Result<Option<Json>>>, d: seq<Result<Option<Json>>>, e: seq<Result<Option<Json>>>)
    requires OnlyTypeErrors(b) && OnlyTypeErrors(c) && OnlyTypeErrors(p) && OnlyTypeErrors(t) && OnlyTypeErrors(d) && OnlyTypeErrors(e)
    ensures OnlyTypeErrors(b + c + p + t + d + e)
  {
    OnlyTypeErrorsConcat(b, c);
    OnlyTypeErrorsConcat(b + c, p);
    OnlyTypeErrorsConcat(b + c + p, t);
    OnlyTypeErrorsConcat(b + c + p + t, d);
    OnlyTypeErrorsConcat(b + c + p + t + d, e);
  }

  /** Collecting properties that throw only TypeErrors throws only a TypeError. */
  lemma CollectTypeError(ws: seq<Result<Option<Json>>>, n: nat)
    requires n <= |ws| && OnlyTypeErrors(ws)
    ensures Collect(ws, n).Err? ==> Collect(ws, n).error == TypeError
  {
    CollectOk(ws, n);
  }

  /** Lines 16-29 throw only for a version that is not a string. */
  lemma BaseThrows(src: Inputs)
    ensures OnlyTypeErrors(BaseValues(src))
    ensures AllOk(BaseValues(src)) <==> Get(src.config, "version").Str?
  {
    var b := BaseValues(src);
    assert !b[11].Ok? <==> !Get(src.config, "version").Str?;
  }

  /** Lines 31-72 and 154-165 never throw. */
  lemma ClassificationAndDatesOk(config: Json)
    ensures AllOk(ClassificationValues(config)) && AllOk(DateValues(config))
  {
  }

  /** Lines 74-110 throw only when the links cannot be mapped. */
  lemma ProtectionThrows(config: Json)
    ensures OnlyTypeErrors(ProtectionValues(config))
    ensures AllOk(ProtectionValues(config)) <==> Links(Get(config, "links")).Ok?
  {
    var p := ProtectionValues(config);
    assert p[5] == Links(Get(config, "links"));
    MapThrowsTypeError(Get(config, "links"), DpdLink);
  }

  /** Lines 112-152 throw only when the section of the product's type cannot be computed. */
  lemma TypeThrows(src: Inputs)
    ensures OnlyTypeErrors(TypeValues(src))
    ensures AllOk(TypeValues(src)) <==>
            (Get(src.config, "type") == Str("primary") ==> DependsOn(src.config, src.csn).Ok?) &&
            (Get(src.config, "type") == Str("derived") ==> DerivedProperties(src.config).Ok?)
  {
    var t := TypeValues(src);
    MapThrowsTypeError(Get(src.config, "inputPorts"), DpdInputPort);
    MapThrowsTypeError(Get(src.config, "dataProductLinks"), DpdDependency);
    assert t[0].Ok? <==> (Get(src.config, "type") == Str("primary") ==> DependsOn(src.config, src.csn).Ok?);
    assert t[1].Ok? <==> (Get(src.config, "type") == Str("derived") ==> DerivedProperties(src.config).Ok?);
  }

  /** Lines 167-195 throw only for a namespace that is not a string or a model without definitions. */
  lemma TailThrows(src: Inputs)
    ensures OnlyTypeErrors(TailValues(src))
    ensures AllOk(TailValues(src)) <==> src.namespace.Str? && OutputSchema(src.config, src.csn).Ok?
  {
    var e := TailValues(src);
    assert e[0] == Responsible(src.namespace) && e[1] == OutputSchema(src.config, src.csn);
  }

  /** Whatever `buildDpd` throws past its first line is a TypeError. */
  lemma ValuesThrowTypeError(src: Inputs)
    ensures OnlyTypeErrors(Values(src))
  {
    var b, c, p, t, d, e := BaseValues(src), ClassificationValues(src.config), ProtectionValues(src.config),
                            TypeValues(src), DateValues(src.config), TailValues(src);
    BaseThrows(src);
    ProtectionThrows(src.config);
    TypeThrows(src);
    TailThrows(src);
    ClassificationAndDatesOk(src.config);
    OnlyTypeErrorsBlocks(b, c, p, t, d, e);
  }

  /** Which blocks throw: the version, the links, the type-specific part, the namespace and the model. */
  lemma ValuesOk(src: Inputs)
    ensures AllOk(Values(src)) <==>
            Get(src.config, "version").Str? && Links(Get(src.config, "links")).Ok? &&
            (Get(src.config, "type") == Str("primary") ==> DependsOn(src.config, src.csn).Ok?) &&
            (Get(src.config, "type") == Str("derived") ==> DerivedProperties(src.config).Ok?) &&
            src.namespace.Str? && OutputSchema(src.config, src.csn).Ok?
  {
    var b, c, p, t, d, e := BaseValues(src), ClassificationValues(src.config), ProtectionValues(src.config),
                            TypeValues(src), DateValues(src.config), TailValues(src);
    BaseThrows(src);
    ProtectionThrows(src.config);
    TypeThrows(src);
    TailThrows(src);
    ClassificationAndDatesOk(src.config);
    AllOkBlocks(b, c, p, t, d, e);
  }

  /**
   * `buildDpd` throws exactly when the configuration is null or undefined,
   * the version is not a string, the namespace in use is not a string, the
   * model or its definitions are missing, the links cannot be mapped, or a
   * derived product's input ports or links cannot be mapped; and what it
   * throws is always a TypeError.
   */
  lemma DescriptorOk(config: Json, csn: Json, appConfig: Json, timestamp: string)
    ensures Descriptor(config, csn, appConfig, timestamp).Ok? <==>
            !IsNullish(config) && Get(config, "version").Str? && Namespace(appConfig).Str? &&
            !IsNullish(csn) && !IsNullish(Get(csn, "definitions")) &&
            Links(Get(config, "links")).Ok? &&
            (Get(config, "type") == Str("derived") ==> DerivedProperties(config).Ok?)
    ensures Descriptor(config, csn, appConfig, timestamp).Err? ==> Descriptor(config, csn, appConfig, timestamp).error == TypeError
  {
    if !IsNullish(config) {
      var src := Inputs(config, csn, Namespace(appConfig), timestamp);
      var ws := Values(src);
      CollectOk(ws, PROPERTIES);
      ValuesOk(src);
      ValuesThrowTypeError(src);
      CollectTypeError(ws, PROPERTIES);
    }
  }

  // ---------------------------------------------------------------------------
  // The object built, block by block
  // ---------------------------------------------------------------------------

  /** Lines 16-29: the schema URL, the copied identity, the defaults, the clock reading, the namespace and the id. */
  predicate FixedPart(dpd: Object, src: Inputs)
  {
    var config := src.config;
    var status := Get(Get(config, "lifecycle"), "status");
    Lookup(dpd, "$schema") == Str(FOS_SCHEMA_URL) &&
    Lookup(dpd, "name") == Get(config, "name") &&
    Lookup(dpd, "version") == Get(config, "version") &&
    Lookup(dpd, "title") == Get(config, "title") &&
    Lookup(dpd, "description") == Get(config, "description") &&
    Lookup(dpd, "type") == Get(config, "type") &&
    Lookup(dpd, "visibility") == (if Truthy(Get(config, "visibility")) then Get(config, "visibility") else Str("internal")) &&
    Lookup(dpd, "category") == (if Truthy(Get(config, "category")) then Get(config, "category") else Str("business-object")) &&
    Lookup(dpd, "status") == (if Truthy(status) then status else Str("active")) &&
    Lookup(dpd, "lastModified") == Str(src.timestamp) &&
    Lookup(dpd, "namespace") == src.namespace &&
    Get(config, "version").Str? &&
    Lookup(dpd, "ordId") == Str(JsString(src.namespace) + ":dataProduct:" + JsString(Get(config, "name")) + ":v" + BeforeFirst(Get(config, "version").s, '.'))
  }

  /** Property `k` is written exactly when `copied`, and then it is the configuration's own value. */
  predicate Copied(dpd: Object, config: Json, k: string, copied: bool)
  {
    (HasKey(dpd, k) <==> copied) && (copied ==> Lookup(dpd, k) == Get(config, k))
  }

  /** `v && v.length > 0` */
  predicate NonEmptyList(v: Json)
  {
    Truthy(v) && HasPositiveLength(v)
  }

  /** Lines 31-72: governance with its default classification, the non-empty lists and the labels. */
  predicate ClassificationCopied(dpd: Object, config: Json)
  {
    var governance := Get(config, "governance");
    var level := Get(governance, "dataClassification");
    (HasKey(dpd, "governance") <==> Truthy(governance)) &&
    (Truthy(governance) ==>
       Lookup(dpd, "governance") ==
       Obj([Field("policyLevel", Get(governance, "policyLevel")),
            Field("dataClassification", if Truthy(level) then level else Str("internal"))])) &&
    Copied(dpd, config, "compliance", NonEmptyList(Get(config, "compliance"))) &&
    Copied(dpd, config, "industry", NonEmptyList(Get(config, "industry"))) &&
    Copied(dpd, config, "lineOfBusiness", NonEmptyList(Get(config, "lineOfBusiness"))) &&
    Copied(dpd, config, "countries", NonEmptyList(Get(config, "countries"))) &&
    Copied(dpd, config, "labels", Truthy(Get(config, "labels"))) &&
    Copied(dpd, config, "tags", NonEmptyList(Get(config, "tags"))) &&
    Copied(dpd, config, "correlationIds", NonEmptyList(Get(config, "correlationIds")))
  }

  /** Lines 74-95 and 107-110: the protection properties when defined or set, the labels and the taxonomy. */
  predicate ProtectionCopied(dpd: Object, config: Json)
  {
    Copied(dpd, config, "personalData", !Get(config, "personalData").Undef?) &&
    Copied(dpd, config, "dataRetention", Truthy(Get(config, "dataRetention"))) &&
    Copied(dpd, config, "dataClassification", Truthy(Get(config, "dataClassification"))) &&
    Copied(dpd, config, "systemInstanceAware", !Get(config, "systemInstanceAware").Undef?) &&
    Copied(dpd, config, "documentationLabels", Truthy(Get(config, "documentationLabels"))) &&
    Copied(dpd, config, "taxonomy", Truthy(Get(config, "taxonomy")))
  }

  /** Lines 97-105: a non-empty list of links is written with each link mapped. */
  predicate LinksWritten(dpd: Object, config: Json)
  {
    var links := Get(config, "links");
    var mapped := Lookup(dpd, "links");
    (HasKey(dpd, "links") <==> NonEmptyList(links)) &&
    (NonEmptyList(links) ==>
       (links.Arr? && mapped.Arr? && |mapped.items| == |links.items| &&
        forall j :: 0 <= j < |links.items| ==> DpdLink(links.items[j]) == Ok(mapped.items[j])))
  }

  /** Lines 112-152: `dependsOn` exactly for a primary product, the derived properties exactly for a derived one. */
  predicate TypeSections(dpd: Object, t: Json, dependsOn: Result<Json>, derived: Result<Json>)
  {
    (HasKey(dpd, "dependsOn") <==> t == Str("primary")) &&
    (t == Str("primary") ==> dependsOn == Ok(Lookup(dpd, "dependsOn"))) &&
    (HasKey(dpd, "derivedDataProductProperties") <==> t == Str("derived")) &&
    (t == Str("derived") ==> derived == Ok(Lookup(dpd, "derivedDataProductProperties")))
  }

  /** A lifecycle date is copied when the lifecycle and the date are set. */
  predicate DateCopied(dpd: Object, config: Json, k: string)
  {
    var lifecycle := Get(config, "lifecycle");
    (HasKey(dpd, k) <==> Truthy(lifecycle) && Truthy(Get(lifecycle, k))) &&
    (HasKey(dpd, k) ==> Lookup(dpd, k) == Get(lifecycle, k))
  }

  /** Lines 154-165. */
  predicate LifecycleDates(dpd: Object, config: Json)
  {
    DateCopied(dpd, config, "deprecationDate") && DateCopied(dpd, config, "sunsetDate") && DateCopied(dpd, config, "lastUpdate")
  }

  /** Line 168: the responsible party, from a namespace that is a string. */
  predicate ResponsibleWritten(dpd: Object, namespace: Json)
  {
    namespace.Str? && Lookup(dpd, "responsible") == Str(RESPONSIBLE_PREFIX + DotsToDashes(namespace.s))
  }

  /** Lines 170-195: the output schema is computed, and written when it has a value (see `OutputSchemaPresent`). */
  predicate SchemaWritten(dpd: Object, schema: Result<Option<Json>>)
  {
    schema.Ok? &&
    (HasKey(dpd, "outputSchema") <==> schema.value.Some?) &&
    (schema.value.Some? ==> Lookup(dpd, "outputSchema") == schema.value.value)
  }

  /** Property `k` holds what `w` says: `w` does not throw, and the property is present exactly when `w` has a value. */
  predicate WrittenAs(dpd: Object, k: string, w: Result<Option<Json>>)
  {
    w.Ok? && (HasKey(dpd, k) <==> w.value.Some?) && (w.value.Some? ==> Lookup(dpd, k) == w.value.value)
  }

  /** Every property is written as `ws` says. */
  predicate AllWritten(ws: seq<Result<Option<Json>>>, dpd: Object)
  {
    |ws| == PROPERTIES && forall i {:trigger Key(i)} :: 0 <= i < PROPERTIES ==> WrittenAs(dpd, Key(i), ws[i])
  }

  /** Collecting all properties writes each one as it says. */
  lemma AllCollected(ws: seq<Result<Option<Json>>>, dpd: Object)
    requires |ws| == PROPERTIES && Collect(ws, PROPERTIES) == Ok(dpd)
    ensures AllWritten(ws, dpd)
  {
    CollectOk(ws, PROPERTIES);
    forall i | 0 <= i < PROPERTIES ensures WrittenAs(dpd, Key(i), ws[i]) {
      CollectLookup(ws, PROPERTIES, i);
    }
  }

  /** Properties 0-11 under their own keys. */
  lemma BaseKeys(ws: seq<Result<Option<Json>>>, dpd: Object)
    requires AllWritten(ws, dpd)
    ensures WrittenAs(dpd, "$schema", ws[0]) && WrittenAs(dpd, "name", ws[1]) && WrittenAs(dpd, "version", ws[2])
    ensures WrittenAs(dpd, "title", ws[3]) && WrittenAs(dpd, "description", ws[4]) && WrittenAs(dpd, "type", ws[5])
    ensures WrittenAs(dpd, "visibility", ws[6]) && WrittenAs(dpd, "category", ws[7]) && WrittenAs(dpd, "status", ws[8])
    ensures WrittenAs(dpd, "lastModified", ws[9]) && WrittenAs(dpd, "namespace", ws[10]) && WrittenAs(dpd, "ordId", ws[11])
  {
    assert WrittenAs(dpd, Key(0), ws[0]) && WrittenAs(dpd, Key(1), ws[1]) && WrittenAs(dpd, Key(2), ws[2]);
    assert WrittenAs(dpd, Key(3), ws[3]) && WrittenAs(dpd, Key(4), ws[4]) && WrittenAs(dpd, Key(5), ws[5]);
    assert WrittenAs(dpd, Key(6), ws[6]) && WrittenAs(dpd, Key(7), ws[7]) && WrittenAs(dpd, Key(8), ws[8]);
    assert WrittenAs(dpd, Key(9), ws[9]) && WrittenAs(dpd, Key(10), ws[10]) && WrittenAs(dpd, Key(11), ws[11]);
  }

  lemma FixedPartWritten(dpd: Object, src: Inputs, b: seq<Result<Option<Json>>>)
    requires b == BaseValues(src)
    requires WrittenAs(dpd, "$schema", b[0]) && WrittenAs(dpd, "name", b[1]) && WrittenAs(dpd, "version", b[2])
    requires WrittenAs(dpd, "title", b[3]) && WrittenAs(dpd, "description", b[4]) && WrittenAs(dpd, "type", b[5])
    requires WrittenAs(dpd, "visibility", b[6]) && WrittenAs(dpd, "category", b[7]) && WrittenAs(dpd, "status", b[8])
    requires WrittenAs(dpd, "lastModified", b[9]) && WrittenAs(dpd, "namespace", b[10]) && WrittenAs(dpd, "ordId", b[11])
    ensures FixedPart(dpd, src)
  {
  }

  lemma FixedPartHolds(ws: seq<Result<Option<Json>>>, dpd: Object, src: Inputs)
    requires AllWritten(ws, dpd) && ws[..BASE_END] == BaseValues(src)
    ensures FixedPart(dpd, src)
  {
    BaseKeys(ws, dpd);
    FixedPartWritten(dpd, src, ws[..BASE_END]);
  }

  /** Properties 12-19 under their own keys. */
  lemma ClassificationKeys(ws: seq<Result<Option<Json>>>, dpd: Object)
    requires AllWritten(ws, dpd)
    ensures WrittenAs(dpd, "governance", ws[12]) && WrittenAs(dpd, "compliance", ws[13]) && WrittenAs(dpd, "industry", ws[14])
    ensures WrittenAs(dpd, "lineOfBusiness", ws[15]) && WrittenAs(dpd, "countries", ws[16]) && WrittenAs(dpd, "labels", ws[17])
    ensures WrittenAs(dpd, "tags", ws[18]) && WrittenAs(dpd, "correlationIds", ws[19])
  {
    assert WrittenAs(dpd, Key(12), ws[12]) && WrittenAs(dpd, Key(13), ws[13]) && WrittenAs(dpd, Key(14), ws[14]);
    assert WrittenAs(dpd, Key(15), ws[15]) && WrittenAs(dpd, Key(16), ws[16]) && WrittenAs(dpd, Key(17), ws[17]);
    assert WrittenAs(dpd, Key(18), ws[18]) && WrittenAs(dpd, Key(19), ws[19]);
  }

  lemma ClassificationWritten(dpd: Object, config: Json, c: seq<Result<Option<Json>>>)
    requires c == ClassificationValues(config)
    requires WrittenAs(dpd, "governance", c[0]) && WrittenAs(dpd, "compliance", c[1]) && WrittenAs(dpd, "industry", c[2])
    requires WrittenAs(dpd, "lineOfBusiness", c[3]) && WrittenAs(dpd, "countries", c[4]) && WrittenAs(dpd, "labels", c[5])
    requires WrittenAs(dpd, "tags", c[6]) && WrittenAs(dpd, "correlationIds", c[7])
    ensures ClassificationCopied(dpd, config)
  {
  }

  lemma ClassificationHolds(ws: seq<Result<Option<Json>>>, dpd: Object, config: Json)
    requires AllWritten(ws, dpd) && ws[BASE_END..CLASSIFICATION_END] == ClassificationValues(config)
    ensures ClassificationCopied(dpd, config)
  {
    ClassificationKeys(ws, dpd);
    ClassificationWritten(dpd, config, ws[BASE_END..CLASSIFICATION_END]);
  }

  /** Properties 20-26 under their own keys. */
  lemma ProtectionKeys(ws: seq<Result<Option<Json>>>, dpd: Object)
    requires AllWritten(ws, dpd)
    ensures WrittenAs(dpd, "personalData", ws[20]) && WrittenAs(dpd, "dataRetention", ws[21])
    ensures WrittenAs(dpd, "dataClassification", ws[22]) && WrittenAs(dpd, "systemInstanceAware", ws[23])
    ensures WrittenAs(dpd, "documentationLabels", ws[24]) && WrittenAs(dpd, "links", ws[25]) && WrittenAs(dpd, "taxonomy", ws[26])
  {
    assert WrittenAs(dpd, Key(20), ws[20]) && WrittenAs(dpd, Key(21), ws[21]) && WrittenAs(dpd, Key(22), ws[22]);
    assert WrittenAs(dpd, Key(23), ws[23]) && WrittenAs(dpd, Key(24), ws[24]) && WrittenAs(dpd, Key(25), ws[25]);
    assert WrittenAs(dpd, Key(26), ws[26]);
  }

  lemma ProtectionWritten(dpd: Object, config: Json, p: seq<Result<Option<Json>>>)
    requires p == ProtectionValues(config)
    requires WrittenAs(dpd, "personalData", p[0]) && WrittenAs(dpd, "dataRetention", p[1])
    requires WrittenAs(dpd, "dataClassification", p[2]) && WrittenAs(dpd, "systemInstanceAware", p[3])
    requires WrittenAs(dpd, "documentationLabels", p[4]) && WrittenAs(dpd, "taxonomy", p[6])
    ensures ProtectionCopied(dpd, config)
  {
  }

  /** The links, property 25, are mapped from the configuration's. */
  lemma LinksWrittenAs(dpd: Object, config: Json, w: Result<Option<Json>>)
    requires WrittenAs(dpd, "links", w) && w == Links(Get(config, "links"))
    ensures LinksWritten(dpd, config)
  {
    LinksOk(Get(config, "links"));
    if w.value.Some? {
      LinksMapped(Get(config, "links"), w.value.value);
    }
  }

  lemma ProtectionHolds(ws: seq<Result<Option<Json>>>, dpd: Object, config: Json)
    requires AllWritten(ws, dpd) && ws[CLASSIFICATION_END..PROTECTION_END] == ProtectionValues(config)
    ensures ProtectionCopied(dpd, config) && LinksWritten(dpd, config)
  {
    var p := ws[CLASSIFICATION_END..PROTECTION_END];
    ProtectionKeys(ws, dpd);
    ProtectionWritten(dpd, config, p);
    LinksWrittenAs(dpd, config, p[5]);
  }

  /** A value that is always written was computed without throwing. */
  lemma AlwaysOk(r: Result<Json>, v: Json)
    requires Always(r) == Ok(Some(v))
    ensures r == Ok(v)
  {
  }

  lemma TypeSectionsHold(ws: seq<Result<Option<Json>>>, dpd: Object, t: Json, dependsOn: Result<Json>, derived: Result<Json>)
    requires AllWritten(ws, dpd)
    requires ws[27] == if t == Str("primary") then Always(dependsOn) else Maybe(None)
    requires ws[28] == if t == Str("derived") then Always(derived) else Maybe(None)
    ensures TypeSections(dpd, t, dependsOn, derived)
  {
    assert WrittenAs(dpd, Key(27), ws[27]) && WrittenAs(dpd, Key(28), ws[28]);
    if t == Str("primary") {
      AlwaysOk(dependsOn, ws[27].value.value);
    }
    if t == Str("derived") {
      AlwaysOk(derived, ws[28].value.value);
    }
  }

  lemma LifecycleDatesHold(ws: seq<Result<Option<Json>>>, dpd: Object, config: Json)
    requires AllWritten(ws, dpd) && ws[TYPE_END..DATES_END] == DateValues(config)
    ensures LifecycleDates(dpd, config)
  {
    var d := ws[TYPE_END..DATES_END];
    assert WrittenAs(dpd, Key(29), ws[29]) && WrittenAs(dpd, Key(30), ws[30]) && WrittenAs(dpd, Key(31), ws[31]);
    DatesWritten(dpd, config, d);
  }

  lemma DatesWritten(dpd: Object, config: Json, d: seq<Result<Option<Json>>>)
    requires d == DateValues(config)
    requires WrittenAs(dpd, "deprecationDate", d[0]) && WrittenAs(dpd, "sunsetDate", d[1]) && WrittenAs(dpd, "lastUpdate", d[2])
    ensures LifecycleDates(dpd, config)
  {
  }

  lemma ResponsibleHolds(ws: seq<Result<Option<Json>>>, dpd: Object, namespace: Json)
    requires AllWritten(ws, dpd) && ws[32] == Responsible(namespace)
    ensures ResponsibleWritten(dpd, namespace)
  {
    assert WrittenAs(dpd, Key(32), ws[32]);
  }

  lemma SchemaHolds(ws: seq<Result<Option<Json>>>, dpd: Object, schema: Result<Option<Json>>)
    requires AllWritten(ws, dpd) && ws[33] == schema
    ensures SchemaWritten(dpd, schema)
  {
    assert WrittenAs(dpd, Key(33), ws[33]);
  }

  lemma TypeHolds(ws: seq<Result<Option<Json>>>, dpd: Object, src: Inputs)
    requires AllWritten(ws, dpd) && ws[PROTECTION_END..TYPE_END] == TypeValues(src)
    ensures TypeSections(dpd, Get(src.config, "type"), DependsOn(src.config, src.csn), DerivedProperties(src.config))
  {
    var t := ws[PROTECTION_END..TYPE_END];
    assert ws[27] == t[0] && ws[28] == t[1];
    TypeSectionsHold(ws, dpd, Get(src.config, "type"), DependsOn(src.config, src.csn), DerivedProperties(src.config));
  }

  lemma TailHolds(ws: seq<Result<Option<Json>>>, dpd: Object, src: Inputs)
    requires AllWritten(ws, dpd) && ws[DATES_END..] == TailValues(src)
    ensures ResponsibleWritten(dpd, src.namespace) && SchemaWritten(dpd, OutputSchema(src.config, src.csn))
  {
    var e := ws[DATES_END..];
    assert ws[32] == e[0] && ws[33] == e[1];
    ResponsibleHolds(ws, dpd, src.namespace);
    SchemaHolds(ws, dpd, OutputSchema(src.config, src.csn));
  }

  /** The output schema is computed whenever the model has definitions, and written when the service is defined. */
  lemma OutputSchemaPresent(config: Json, csn: Json)
    ensures var service := Definition(csn, Get(config, "name"));
            (OutputSchema(config, csn).Ok? <==> service.Ok?) &&
            (service.Ok? ==> (OutputSchema(config, csn).value.Some? <==> Truthy(service.value)))
  {
  }

  /** A written output schema has type `cds`, one entry per entity, and events exactly when the service has them. */
  lemma OutputSchemaShape(config: Json, csn: Json)
    ensures var service := Definition(csn, Get(config, "name"));
            var r := OutputSchema(config, csn);
            r.Ok? ==>
              (r.value.Some? ==>
                 var fields := r.value.value.fields;
                 var events := Get(service.value, "events");
                 r.value.value.Obj? &&
                 Lookup(fields, "type") == Str("cds") &&
                 Lookup(fields, "entities") == Arr(Named(EntityNames(service.value), "entity")) &&
                 (HasKey(fields, "events") <==> Truthy(events)) &&
                 (Truthy(events) ==> Lookup(fields, "events") == Arr(Named(NamesOf(events), "event"))))
  {
    var service := Definition(csn, Get(config, "name"));
    if service.Ok? && Truthy(service.value) {
      SchemaShape(Named(EntityNames(service.value), "entity"), Get(service.value, "events"));
    }
  }

  lemma SchemaShape(entities: seq<Json>, events: Json)
    ensures var fields := Schema(entities, events);
            Lookup(fields, "type") == Str("cds") &&
            Lookup(fields, "entities") == Arr(entities) &&
            (HasKey(fields, "events") <==> Truthy(events)) &&
            (Truthy(events) ==> Lookup(fields, "events") == Arr(Named(NamesOf(events), "event")))
  {
    var fields := Schema(entities, events);
    LookupAt(fields, 0);
    LookupAt(fields, 1);
    if Truthy(events) {
      LookupAt(fields, 2);
    } else {
      assert !HasKey(fields, "events") by {
        forall j | 0 <= j < |fields| ensures fields[j].key != "events" {
        }
      }
    }
  }

  /** The identity properties the validator reads are the configuration's own, with the category's default. */
  lemma DescriptorIdentity(config: Json, csn: Json, appConfig: Json, timestamp: string, dpd: Object)
    requires Descriptor(config, csn, appConfig, timestamp) == Ok(dpd)
    ensures Lookup(dpd, "name") == Get(config, "name") && Lookup(dpd, "title") == Get(config, "title")
    ensures Lookup(dpd, "version") == Get(config, "version") && Get(config, "version").Str?
    ensures Lookup(dpd, "type") == Get(config, "type")
    ensures Lookup(dpd, "category") == if Truthy(Get(config, "category")) then Get(config, "category") else Str("business-object")
  {
    DescriptorProperties(config, csn, appConfig, timestamp, dpd);
    assert FixedPart(dpd, Inputs(config, csn, Namespace(appConfig), timestamp));
  }
  /**
   * A descriptor that `buildDpd` returns holds, block by block, what the
   * source writes; no key appears twice, and every key is one of the 34.
   */
  lemma DescriptorProperties(config: Json, csn: Json, appConfig: Json, timestamp: string, dpd: Object)
    requires Descriptor(config, csn, appConfig, timestamp) == Ok(dpd)
    ensures var src := Inputs(config, csn, Namespace(appConfig), timestamp);
            FixedPart(dpd, src) && ClassificationCopied(dpd, config) && ProtectionCopied(dpd, config) &&
            LinksWritten(dpd, config) && LifecycleDates(dpd, config) && ResponsibleWritten(dpd, src.namespace)
    ensures TypeSections(dpd, Get(config, "type"), DependsOn(config, csn), DerivedProperties(config))
    ensures SchemaWritten(dpd, OutputSchema(config, csn))
    ensures UniqueKeys(dpd) && forall f :: f in dpd ==> exists j :: 0 <= j < PROPERTIES && f.key == Key(j)
  {
    var src := Inputs(config, csn, Namespace(appConfig), timestamp);
    var ws := Values(src);
    Blocks(src);
    AllCollected(ws, dpd);
    CollectKeys(ws, PROPERTIES);
    FixedPartHolds(ws, dpd, src);
    ClassificationHolds(ws, dpd, config);
    ProtectionHolds(ws, dpd, config);
    TypeHolds(ws, dpd, src);
    LifecycleDatesHold(ws, dpd, config);
    TailHolds(ws, dpd, src);
  }

  // ---------------------------------------------------------------------------
  // Derived properties of single fields
  // ---------------------------------------------------------------------------

  /**
   * The descriptor's `ordId` is the id `generateDataProductId` computes for a
   * non-empty version; for the empty version the builder writes `:v` where the
   * shared helper writes `:v1`.
   */
  lemma OrdIdAgrees(namespace: Json, name: Json, version: string)
    ensures version != "" ==> Utils.GenerateDataProductId(namespace, name, Str(version)) == Ok(OrdIdText(namespace, name, version))
    ensures version == "" ==>
              OrdIdText(namespace, name, version) == JsString(namespace) + ":dataProduct:" + JsString(name) + ":v" &&
              Utils.GenerateDataProductId(namespace, name, Str(version)) == Ok(OrdIdText(namespace, name, version) + "1")
  {
    var head := JsString(namespace) + ":dataProduct:" + JsString(name);
    if version != "" {
      var major := BeforeFirst(version, '.');
      assert head + ":" + ("v" + major) == head + ":v" + major;
    } else {
      assert BeforeFirst(version, '.') == "";
      assert head + ":" + "v1" == head + ":v" + "" + "1";
    }
  }

  /** Without an `ordNamespace`, the namespace is `customer.sample` and the id starts with it. */
  lemma DefaultNamespaceOrdId(appConfig: Json, name: Json, version: string)
    requires !Truthy(Get(appConfig, "ordNamespace"))
    ensures Namespace(appConfig) == Str("customer.sample")
    ensures "customer.sample:dataProduct:" <= OrdIdText(Namespace(appConfig), name, version)
  {
    var rest := JsString(name) + ":v" + BeforeFirst(version, '.');
    assert OrdIdText(Namespace(appConfig), name, version) == "customer.sample:dataProduct:" + rest;
  }

  /**
   * The responsible party is the prefix followed by the namespace, with
   * every '.' turned into '-' and every other character kept.
   */
  lemma ResponsibleShape(namespace: Json)
    ensures Responsible(namespace).Ok? <==> namespace.Str?
    ensures Responsible(namespace).Ok? ==>
              var r := Responsible(namespace).value;
              r.Some? && r.value.Str? &&
              var text := r.value.s;
              |text| == |RESPONSIBLE_PREFIX| + |namespace.s| && text[..|RESPONSIBLE_PREFIX|] == RESPONSIBLE_PREFIX &&
              '.' !in text[|RESPONSIBLE_PREFIX|..] &&
              forall i :: 0 <= i < |namespace.s| && namespace.s[i] != '.' ==> text[|RESPONSIBLE_PREFIX| + i] == namespace.s[i]
  {
    if namespace.Str? {
      var dashed := DotsToDashes(namespace.s);
      assert (RESPONSIBLE_PREFIX + dashed)[|RESPONSIBLE_PREFIX|..] == dashed;
    }
  }

  /** A primary product depends on one dataset per entity of its service, in order, and on no data source. */
  lemma DependsOnShape(config: Json, csn: Json)
    ensures DependsOn(config, csn).Ok? <==> !IsNullish(csn) && !IsNullish(Get(csn, "definitions"))
    ensures DependsOn(config, csn).Ok? ==>
              var names := EntityNames(Definition(csn, Get(config, "name")).value);
              var fields := DependsOn(config, csn).value.fields;
              DependsOn(config, csn).value.Obj? &&
              Lookup(fields, "datasources") == Arr([]) &&
              Lookup(fields, "datasets").Arr? && |Lookup(fields, "datasets").items| == |names| &&
              forall i :: 0 <= i < |names| ==> Lookup(fields, "datasets").items[i] == Dataset(names[i], Get(config, "name"))
  {
  }
}
