/**
 * The two `generateDpdFiles` drivers that turn a compiled model into
 * descriptor files:
 *
 *  - lib/dataProducts/dpdGenerator.js reads the `@ORD.dataProduct.*`
 *    annotations of every service definition into a configuration
 *    (`extractDataProductAnnotations`) and builds one descriptor per
 *    annotated service;
 *  - lib/dataProducts/dpd/generator.js runs the processor chain and builds,
 *    validates and names one descriptor per record the chain returns.
 *
 * A file is modelled as `DpdFile`; the clock reading that `buildDpd` takes
 * is one parameter for the whole run, and the override document the chain
 * loads is passed in as loaded.
 */
module DpdGenerator {
  import opened Js
  import opened Text
  import Csn
  import Chain
  import DpdBuilder
  import DpdValidator

  /** `{ filename, content, serviceName }` as pushed onto the result list. */
  datatype DpdFile = DpdFile(filename: string, content: Object, serviceName: Json)

  // ---------------------------------------------------------------------------
  // extractDataProductAnnotations (lib/dataProducts/dpdGenerator.js:11-93)
  // ---------------------------------------------------------------------------

  /** Lines 15-17: a key that marks a service as a data product. */
  predicate IsDataProductKey(k: string)
  {
    StartsWith(k, "@ORD.dataProduct") || StartsWith(k, "@ord.dataProduct")
  }

  /** Lines 15-17: `Object.keys(serviceDefinition).some(IsDataProductKey)`. */
  predicate HasDataProductAnnotations(def: Object)
  {
    exists i :: 0 <= i < |def| && IsDataProductKey(def[i].key)
  }

  /** Lines 32-35, `getAnnotation(suffix)`: the upper-case key wins unless its value is falsy. */
  function Annotation(def: Object, suffix: string): (r: Json)
    ensures Truthy(Lookup(def, "@ORD." + suffix)) ==> r == Lookup(def, "@ORD." + suffix)
    ensures !Truthy(Lookup(def, "@ORD." + suffix)) ==> r == Lookup(def, "@ord." + suffix)
  {
    Or(Lookup(def, "@ORD." + suffix), Lookup(def, "@ord." + suffix))
  }

  /** Lines 26-29 and 38-65: the properties with a default or a condition, in the order they are added. */
  const FIXED_KEYS: seq<string> :=
    ["name", "version", "title", "type", "visibility", "category", "description", "lifecycle", "governance"]

  /** Lines 68-83: the annotations copied under their own name. */
  const COPIED_KEYS: seq<string> :=
    ["compliance", "industry", "lineOfBusiness", "countries", "labels", "inputPorts", "dataProductLinks", "tags",
     "correlationIds", "personalData", "dataRetention", "dataClassification", "systemInstanceAware",
     "documentationLabels", "links", "taxonomy"]

  const CONFIG_KEYS: seq<string> := FIXED_KEYS + COPIED_KEYS

  /** Lines 48-56: the lifecycle section, added only when a status is annotated. */
  function LifecycleConfig(def: Object): (r: Json)
    ensures !Truthy(Annotation(def, "lifecycle.status")) ==> r == Undef
    ensures Truthy(Annotation(def, "lifecycle.status")) ==>
              Get(r, "status") == Annotation(def, "lifecycle.status") &&
              Get(r, "deprecationDate") == Annotation(def, "lifecycle.deprecationDate") &&
              Get(r, "sunsetDate") == Annotation(def, "lifecycle.sunsetDate") &&
              Get(r, "lastUpdate") == Annotation(def, "lifecycle.lastUpdate")
  {
    var status := Annotation(def, "lifecycle.status");
    if Truthy(status) then
      var section := [ Field("status", status),
                       Field("deprecationDate", Annotation(def, "lifecycle.deprecationDate")),
                       Field("sunsetDate", Annotation(def, "lifecycle.sunsetDate")),
                       Field("lastUpdate", Annotation(def, "lifecycle.lastUpdate")) ];
      LookupAt(section, 1);
      LookupAt(section, 2);
      LookupAt(section, 3);
      Obj(section)
    else Undef
  }

  /** Lines 59-65: the governance section, added only when a policy level is annotated. */
  function GovernanceConfig(def: Object): (r: Json)
    ensures !Truthy(Annotation(def, "governance.policyLevel")) ==> r == Undef
    ensures Truthy(Annotation(def, "governance.policyLevel")) ==>
              Get(r, "policyLevel") == Annotation(def, "governance.policyLevel") &&
              Get(r, "dataClassification") == Annotation(def, "governance.dataClassification")
  {
    var policyLevel := Annotation(def, "governance.policyLevel");
    if Truthy(policyLevel) then
      var section := [ Field("policyLevel", policyLevel),
                       Field("dataClassification", Annotation(def, "governance.dataClassification")) ];
      LookupAt(section, 1);
      Obj(section)
    else Undef
  }

  /**
   * Lines 26-65. A `lifecycle` or `governance` property that the source
   * does not add is written here as undefined: it takes the same place and
   * the clean-up at lines 86-90 removes it, so the configuration returned
   * is the same.
   */
  function FixedConfig(serviceName: string, def: Object): (r: Object)
  {
    [ Field("name", Str(serviceName)),
      Field("version", Or(Annotation(def, "dataProduct.version"), Str("1.0.0"))),
      Field("title", Or(Annotation(def, "dataProduct.title"), Str(serviceName))),
      Field("type", Or(Annotation(def, "dataProduct.type"), Str("primary"))),
      Field("visibility", Or(Annotation(def, "dataProduct.visibility"), Str("internal"))),
      Field("category", Or(Annotation(def, "dataProduct.category"), Str("business-object"))),
      Field("description", Or(Annotation(def, "dataProduct.description"), Str("Data product for " + serviceName))),
      Field("lifecycle", LifecycleConfig(def)),
      Field("governance", GovernanceConfig(def)) ]
  }

  /** Lines 68-83: `config[k] = getAnnotation(k)` for every copied key. */
  function CopiedConfig(def: Object): (r: Object)
    ensures |r| == |COPIED_KEYS|
    ensures forall i :: 0 <= i < |r| ==> r[i] == Field(COPIED_KEYS[i], Annotation(def, COPIED_KEYS[i]))
  {
    seq(|COPIED_KEYS|, i requires 0 <= i < |COPIED_KEYS| => Field(COPIED_KEYS[i], Annotation(def, COPIED_KEYS[i])))
  }

  /** The configuration before undefined properties are removed. */
  function RawConfig(serviceName: string, def: Object): Object
  {
    FixedConfig(serviceName, def) + CopiedConfig(def)
  }

  /** What the clean-up at lines 86-90 leaves: the properties whose value is not undefined, in order. */
  function Defined(o: Object): (r: Object)
    ensures |r| <= |o|
    ensures forall i :: 0 <= i < |r| ==> r[i].value != Undef
  {
    if o == [] then []
    else if o[0].value == Undef then Defined(o[1..])
    else [o[0]] + Defined(o[1..])
  }

  /** Lines 86-90: every property whose value is undefined is deleted, one key after the other. */
  method DeleteUndefined(config: Object) returns (r: Object)
    ensures r == Defined(config)
  {
    r := [];
    var i := 0;
    while i < |config|
      invariant 0 <= i <= |config|
      invariant r + Defined(config[i..]) == Defined(config)
    {
      assert config[i..][1..] == config[i + 1..];
      if config[i].value != Undef {
        r := r + [config[i]];
      }
      i := i + 1;
    }
    assert config[i..] == [];
  }

  /** `extractDataProductAnnotations(serviceName, serviceDefinition)`: null for a service without annotations. */
  function Extracted(serviceName: string, def: Object): Option<Object>
  {
    if HasDataProductAnnotations(def) then Some(Defined(RawConfig(serviceName, def))) else None
  }

  /** Lines 11-93. */
  method ExtractDataProductAnnotations(serviceName: string, def: Object) returns (r: Option<Object>)
    ensures r == Extracted(serviceName, def)
    ensures r.None? <==> forall i :: 0 <= i < |def| ==> !IsDataProductKey(def[i].key)
  {
    if !HasDataProductAnnotations(def) {
      return None;
    }
    var config := DeleteUndefined(RawConfig(serviceName, def));
    r := Some(config);
  }

  // ---------------------------------------------------------------------------
  // Properties of the extracted configuration
  // ---------------------------------------------------------------------------

  /** The keys the configuration is built with are pairwise distinct. */
  lemma ConfigKeysDistinct(i: nat, j: nat)
    requires i < j < |CONFIG_KEYS|
    ensures CONFIG_KEYS[i] != CONFIG_KEYS[j]
  {
  }

  /** The raw configuration holds the keys `CONFIG_KEYS`, each once. */
  lemma RawKeysUnique(serviceName: string, def: Object)
    ensures |RawConfig(serviceName, def)| == |CONFIG_KEYS|
    ensures forall i :: 0 <= i < |CONFIG_KEYS| ==> RawConfig(serviceName, def)[i].key == CONFIG_KEYS[i]
    ensures UniqueKeys(RawConfig(serviceName, def))
  {
    var raw := RawConfig(serviceName, def);
    var fixed := FixedConfig(serviceName, def);
    assert |fixed| == |FIXED_KEYS|;
    forall i | 0 <= i < |CONFIG_KEYS| ensures raw[i].key == CONFIG_KEYS[i] {
      if i < |FIXED_KEYS| {
        assert raw[i] == fixed[i];
      } else {
        assert raw[i] == CopiedConfig(def)[i - |FIXED_KEYS|];
      }
    }
    forall i, j | 0 <= i < j < |raw| ensures raw[i].key != raw[j].key {
      ConfigKeysDistinct(i, j);
    }
  }

  /**
   * Removing undefined properties from an object whose keys are unique
   * keeps every other property as it was: a key is still present exactly
   * when its value was not undefined.
   */
  lemma {:induction false} DefinedLookup(o: Object, k: string)
    requires UniqueKeys(o)
    ensures Lookup(Defined(o), k) == Lookup(o, k)
    ensures HasKey(Defined(o), k) <==> Lookup(o, k) != Undef
  {
    if o != [] {
      var rest := o[1..];
      assert UniqueKeys(rest);
      DefinedLookup(rest, k);
      var d := Defined(o);
      if o[0].key == k {
        assert !HasKey(rest, k) by {
          forall i | 0 <= i < |rest| ensures rest[i].key != k {
            assert rest[i] == o[i + 1];
          }
        }
        LookupMissing(rest, k);
        if o[0].value != Undef {
          assert d[0] == o[0];
        }
      } else if o[0].value != Undef {
        assert d == [o[0]] + Defined(rest);
        HasKeyCons(d, k);
        assert d[1..] == Defined(rest);
      }
    }
  }

  /** The raw configuration's value under `CONFIG_KEYS[i]`. */
  lemma RawLookup(serviceName: string, def: Object, i: nat)
    requires i < |CONFIG_KEYS|
    ensures Lookup(Defined(RawConfig(serviceName, def)), CONFIG_KEYS[i]) == RawConfig(serviceName, def)[i].value
    ensures HasKey(Defined(RawConfig(serviceName, def)), CONFIG_KEYS[i]) <==> RawConfig(serviceName, def)[i].value != Undef
  {
    var raw := RawConfig(serviceName, def);
    RawKeysUnique(serviceName, def);
    LookupAt(raw, i);
    DefinedLookup(raw, CONFIG_KEYS[i]);
  }

  /** The raw configuration's value under `FIXED_KEYS[i]`, for one of the properties with a default or a condition. */
  lemma FixedLookup(serviceName: string, def: Object, i: nat)
    requires i < |FIXED_KEYS|
    ensures Lookup(Defined(RawConfig(serviceName, def)), FIXED_KEYS[i]) == FixedConfig(serviceName, def)[i].value
    ensures HasKey(Defined(RawConfig(serviceName, def)), FIXED_KEYS[i]) <==> FixedConfig(serviceName, def)[i].value != Undef
  {
    assert RawConfig(serviceName, def)[i] == FixedConfig(serviceName, def)[i];
    assert CONFIG_KEYS[i] == FIXED_KEYS[i];
    RawLookup(serviceName, def, i);
  }

  /**
   * Lines 26-45: the name is the service's, and the version and title fall
   * back to 1.0.0 and the service name when no truthy annotation is found.
   */
  lemma ExtractedIdentity(serviceName: string, def: Object, config: Object)
    requires Extracted(serviceName, def) == Some(config)
    ensures Lookup(config, "name") == Str(serviceName)
    ensures Lookup(config, "version") == Or(Annotation(def, "dataProduct.version"), Str("1.0.0"))
    ensures Lookup(config, "title") == Or(Annotation(def, "dataProduct.title"), Str(serviceName))
    ensures Truthy(Lookup(config, "version"))
  {
    FixedLookup(serviceName, def, 0);
    FixedLookup(serviceName, def, 1);
    FixedLookup(serviceName, def, 2);
  }

  /** Lines 38-42: type, visibility, category and description fall back to their defaults. */
  lemma ExtractedDefaults(serviceName: string, def: Object, config: Object)
    requires Extracted(serviceName, def) == Some(config)
    ensures Lookup(config, "type") == Or(Annotation(def, "dataProduct.type"), Str("primary"))
    ensures Lookup(config, "visibility") == Or(Annotation(def, "dataProduct.visibility"), Str("internal"))
    ensures Lookup(config, "category") == Or(Annotation(def, "dataProduct.category"), Str("business-object"))
    ensures Lookup(config, "description") == Or(Annotation(def, "dataProduct.description"), Str("Data product for " + serviceName))
  {
    FixedLookup(serviceName, def, 3);
    FixedLookup(serviceName, def, 4);
    FixedLookup(serviceName, def, 5);
    FixedLookup(serviceName, def, 6);
  }

  /**
   * Lines 48-65: `lifecycle` is present exactly when a lifecycle status is
   * annotated, and `governance` exactly when a policy level is.
   */
  lemma ExtractedSections(serviceName: string, def: Object, config: Object)
    requires Extracted(serviceName, def) == Some(config)
    ensures HasKey(config, "lifecycle") <==> Truthy(Annotation(def, "lifecycle.status"))
    ensures Lookup(config, "lifecycle") == LifecycleConfig(def)
    ensures HasKey(config, "governance") <==> Truthy(Annotation(def, "governance.policyLevel"))
    ensures Lookup(config, "governance") == GovernanceConfig(def)
  {
    FixedLookup(serviceName, def, 7);
    FixedLookup(serviceName, def, 8);
  }

  /**
   * Lines 68-90: every copied annotation is present exactly when it is not
   * undefined, with the annotated value.
   */
  lemma ExtractedCopies(serviceName: string, def: Object, config: Object, i: nat)
    requires Extracted(serviceName, def) == Some(config) && i < |COPIED_KEYS|
    ensures HasKey(config, COPIED_KEYS[i]) <==> Annotation(def, COPIED_KEYS[i]) != Undef
    ensures Lookup(config, COPIED_KEYS[i]) == Annotation(def, COPIED_KEYS[i])
  {
    var raw := RawConfig(serviceName, def);
    var n := |FIXED_KEYS|;
    assert raw[n + i].value == Annotation(def, COPIED_KEYS[i]) by {
      assert raw[n + i] == CopiedConfig(def)[i];
    }
    assert CONFIG_KEYS[n + i] == COPIED_KEYS[i];
    assert config == Defined(raw);
    RawLookup(serviceName, def, n + i);
  }

  // ---------------------------------------------------------------------------
  // Lists of per-item outcomes
  // ---------------------------------------------------------------------------

  /** The file, if any, as a list of zero or one. */
  function Listed<T>(o: Option<T>): seq<T>
  {
    if o.Some? then [o.value] else []
  }

  /** The files of a run in which every item either yields a file or is skipped, in order. */
  function Kept<T>(outcomes: seq<Option<T>>): (r: seq<T>)
    ensures |r| <= |outcomes|
  {
    if outcomes == [] then []
    else Kept(outcomes[..|outcomes| - 1]) + Listed(outcomes[|outcomes| - 1])
  }

  /**
   * The files of a run in which an item may also throw: the first exception
   * escapes and nothing is returned, otherwise the files in order.
   */
  function Gather<T>(outcomes: seq<Result<Option<T>>>): (r: Result<seq<T>>)
  {
    if outcomes == [] then Ok([])
    else
      var front :- Gather(outcomes[..|outcomes| - 1]);
      var last :- outcomes[|outcomes| - 1];
      Ok(front + Listed(last))
  }

  /** Items keep their order across a split. */
  lemma {:induction false} KeptConcat<T>(a: seq<Option<T>>, b: seq<Option<T>>)
    ensures Kept(a + b) == Kept(a) + Kept(b)
    decreases |b|
  {
    if b == [] {
      assert a + b == a;
    } else {
      var p, last := b[..|b| - 1], b[|b| - 1];
      KeptConcat(a, p);
      assert (a + b)[..|a + b| - 1] == a + p;
      assert (a + b)[|a + b| - 1] == last;
      calc {
        Kept(a + b);
        Kept(a + p) + Listed(last);
        (Kept(a) + Kept(p)) + Listed(last);
        Kept(a) + (Kept(p) + Listed(last));
        Kept(a) + Kept(b);
      }
    }
  }

  /** Every file kept comes from one item. */
  lemma {:induction false} KeptFrom<T>(a: seq<Option<T>>)
    ensures forall x :: x in Kept(a) ==> exists j :: 0 <= j < |a| && a[j] == Some(x)
  {
    if a != [] {
      var p := a[..|a| - 1];
      KeptFrom(p);
      forall x | x in Kept(a) ensures exists j :: 0 <= j < |a| && a[j] == Some(x) {
        if x in Kept(p) {
          var j :| 0 <= j < |p| && p[j] == Some(x);
          assert a[j] == p[j];
        } else {
          assert a[|a| - 1] == Some(x);
        }
      }
    }
  }

  /** A run that throws nowhere returns its files; otherwise the first exception escapes. */
  lemma {:induction false} GatherFacts<T>(outcomes: seq<Result<Option<T>>>)
    ensures Gather(outcomes).Ok? <==> forall j :: 0 <= j < |outcomes| ==> outcomes[j].Ok?
    ensures Gather(outcomes).Ok? ==>
              forall x :: x in Gather(outcomes).value ==> exists j :: 0 <= j < |outcomes| && outcomes[j] == Ok(Some(x))
    ensures Gather(outcomes).Ok? ==> |Gather(outcomes).value| <= |outcomes|
    ensures Gather(outcomes).Err? ==> exists j :: 0 <= j < |outcomes| && outcomes[j] == Err(Gather(outcomes).error)
  {
    if outcomes != [] {
      var n := |outcomes| - 1;
      var p := outcomes[..n];
      GatherFacts(p);
      assert forall j :: 0 <= j < n ==> outcomes[j] == p[j];
      if Gather(outcomes).Ok? {
        var front := Gather(p).value;
        forall x | x in Gather(outcomes).value ensures exists j :: 0 <= j < |outcomes| && outcomes[j] == Ok(Some(x)) {
          if x in front {
            var j :| 0 <= j < n && p[j] == Ok(Some(x));
            assert outcomes[j] == p[j];
          } else {
            assert outcomes[n] == Ok(Some(x));
          }
        }
      }
      if Gather(outcomes).Err? && Gather(p).Err? {
        var j :| 0 <= j < n && p[j] == Err(Gather(p).error);
        assert outcomes[j] == p[j];
      }
    }
  }

  /** Once an item throws after items that did not, the run throws that exception. */
  lemma {:induction false} GatherErr<T>(outcomes: seq<Result<Option<T>>>, i: nat, n: nat)
    requires i < n <= |outcomes| && Gather(outcomes[..i]).Ok? && outcomes[i].Err?
    ensures Gather(outcomes[..n]) == Err(outcomes[i].error)
  {
    var s := outcomes[..n];
    if n == i + 1 {
      assert s[..|s| - 1] == outcomes[..i];
    } else {
      GatherErr(outcomes, i, n - 1);
      assert s[..|s| - 1] == outcomes[..n - 1];
    }
  }

  // ---------------------------------------------------------------------------
  // generateDpdFiles of lib/dataProducts/dpdGenerator.js:101-135
  // ---------------------------------------------------------------------------

  /**
   * Lines 105-130 for one `[name, definition]` entry: reading `kind`
   * throws on a null or undefined definition, outside the `try`; a service
   * with annotations is built, and a build that throws yields no file.
   */
  function ServiceFile(name: string, definition: Json, csn: Json, appConfig: Json, timestamp: string): Result<Option<DpdFile>>
  {
    var kind :- Member(definition, "kind");
    if kind != Str("service") then Ok(None)
    else
      assert definition.Obj?;
      match Extracted(name, definition.fields)
      case None => Ok(None)
      case Some(config) =>
        match DpdBuilder.Descriptor(Obj(config), csn, appConfig, timestamp)
        case Err(_) => Ok(None)
        case Ok(dpd) => Ok(Some(DpdFile(name + "_" + JsString(Lookup(config, "version")) + ".json", dpd, Str(name))))
  }

  /** What each entry's callback does. */
  function ServiceOutcomes(entries: seq<Field>, csn: Json, appConfig: Json, timestamp: string): (r: seq<Result<Option<DpdFile>>>)
    ensures |r| == |entries|
    ensures forall j :: 0 <= j < |entries| ==> r[j] == ServiceFile(entries[j].key, entries[j].value, csn, appConfig, timestamp)
  {
    seq(|entries|, j requires 0 <= j < |entries| => ServiceFile(entries[j].key, entries[j].value, csn, appConfig, timestamp))
  }

  /** `generateDpdFiles(csn, appConfig)` of lib/dataProducts/dpdGenerator.js. */
  function FilesFromAnnotations(csn: Json, appConfig: Json, timestamp: string): Result<seq<DpdFile>>
  {
    var entries :- Csn.Definitions(csn);
    Gather(ServiceOutcomes(entries, csn, appConfig, timestamp))
  }

  /** Lines 106-129, the callback for one entry. */
  method HandleEntry(name: string, definition: Json, csn: Json, appConfig: Json, timestamp: string)
    returns (r: Result<Option<DpdFile>>)
    ensures r == ServiceFile(name, definition, csn, appConfig, timestamp)
  {
    if IsNullish(definition) {
      return Err(TypeError);
    }
    if Get(definition, "kind") != Str("service") {
      return Ok(None);
    }
    var config := ExtractDataProductAnnotations(name, definition.fields);
    if config.None? {
      return Ok(None);
    }
    var built := DpdBuilder.BuildDpd(Obj(config.value), csn, appConfig, timestamp);
    if built.Err? {
      return Ok(None);
    }
    var filename := name + "_" + JsString(Lookup(config.value, "version")) + ".json";
    r := Ok(Some(DpdFile(filename, built.value, Str(name))));
  }

  /**
   * Lines 105-130: the entries in order; the files of the entries handled so
   * far accumulate, and an exception from an entry escapes the whole run.
   */
  method HandleEntries(entries: seq<Field>, csn: Json, appConfig: Json, timestamp: string) returns (r: Result<seq<DpdFile>>)
    ensures r == Gather(ServiceOutcomes(entries, csn, appConfig, timestamp))
  {
    ghost var outcomes := ServiceOutcomes(entries, csn, appConfig, timestamp);
    var files: seq<DpdFile> := [];
    for i := 0 to |entries|
      invariant Gather(outcomes[..i]) == Ok(files)
    {
      var head := HandleEntry(entries[i].key, entries[i].value, csn, appConfig, timestamp);
      assert outcomes[..i + 1][..i] == outcomes[..i];
      if head.Err? {
        GatherErr(outcomes, i, |entries|);
        assert outcomes[..|entries|] == outcomes;
        return Err(head.error);
      }
      files := files + Listed(head.value);
    }
    assert outcomes[..|entries|] == outcomes;
    r := Ok(files);
  }

  /** Lines 101-135: reading `csn.definitions` throws when the model or its definitions are missing. */
  method GenerateFromAnnotations(csn: Json, appConfig: Json, timestamp: string) returns (r: Result<seq<DpdFile>>)
    ensures r == FilesFromAnnotations(csn, appConfig, timestamp)
  {
    var definitions := Csn.Definitions(csn);
    if definitions.Err? {
      return Err(definitions.error);
    }
    r := HandleEntries(definitions.value, csn, appConfig, timestamp);
  }

  /**
   * Lines 105-130: an entry yields a file exactly when it is an annotated
   * service whose descriptor builds; the file is named after the service
   * and the configured version, which defaults to 1.0.0.
   */
  lemma ServiceFileSpec(name: string, definition: Json, csn: Json, appConfig: Json, timestamp: string)
    ensures ServiceFile(name, definition, csn, appConfig, timestamp).Err? <==> IsNullish(definition)
    ensures ServiceFile(name, definition, csn, appConfig, timestamp).Err? ==> ServiceFile(name, definition, csn, appConfig, timestamp).error == TypeError
    ensures ServiceFile(name, definition, csn, appConfig, timestamp).Ok? &&
            ServiceFile(name, definition, csn, appConfig, timestamp).value.Some? <==>
              definition.Obj? && Get(definition, "kind") == Str("service") &&
              HasDataProductAnnotations(definition.fields) &&
              DpdBuilder.Descriptor(Obj(Defined(RawConfig(name, definition.fields))), csn, appConfig, timestamp).Ok?
    ensures ServiceFile(name, definition, csn, appConfig, timestamp).Ok? &&
            ServiceFile(name, definition, csn, appConfig, timestamp).value.Some? ==>
              var f := ServiceFile(name, definition, csn, appConfig, timestamp).value.value;
              f.serviceName == Str(name) &&
              f.filename == name + "_" + JsString(Or(Annotation(definition.fields, "dataProduct.version"), Str("1.0.0"))) + ".json" &&
              DpdBuilder.Descriptor(Obj(Defined(RawConfig(name, definition.fields))), csn, appConfig, timestamp) == Ok(f.content)
  {
    if definition.Obj? && Get(definition, "kind") == Str("service") && HasDataProductAnnotations(definition.fields) {
      ExtractedIdentity(name, definition.fields, Defined(RawConfig(name, definition.fields)));
    }
  }

  /**
   * The run over all entries throws exactly when some definition is null
   * or undefined, and then a TypeError; otherwise it yields at most one
   * file per entry, each named after an annotated service.
   */
  lemma ServiceFilesOk(entries: seq<Field>, csn: Json, appConfig: Json, timestamp: string)
    ensures var r := Gather(ServiceOutcomes(entries, csn, appConfig, timestamp));
            (r.Ok? <==> forall j :: 0 <= j < |entries| ==> !IsNullish(entries[j].value)) &&
            (r.Err? ==> r.error == TypeError) &&
            (r.Ok? ==> |r.value| <= |entries| &&
                       forall f :: f in r.value ==>
                         exists j :: 0 <= j < |entries| && f.serviceName == Str(entries[j].key) && entries[j].value.Obj? &&
                                     HasDataProductAnnotations(entries[j].value.fields))
  {
    var outcomes := ServiceOutcomes(entries, csn, appConfig, timestamp);
    GatherFacts(outcomes);
    forall j | 0 <= j < |entries|
      ensures outcomes[j].Ok? <==> !IsNullish(entries[j].value)
      ensures outcomes[j].Err? ==> outcomes[j].error == TypeError
      ensures outcomes[j].Ok? && outcomes[j].value.Some? ==>
                outcomes[j].value.value.serviceName == Str(entries[j].key) && entries[j].value.Obj? &&
                HasDataProductAnnotations(entries[j].value.fields)
    {
      ServiceFileSpec(entries[j].key, entries[j].value, csn, appConfig, timestamp);
    }
  }

  // ---------------------------------------------------------------------------
  // generateDpdFiles of lib/dataProducts/dpd/generator.js:13-73
  // ---------------------------------------------------------------------------

  /** Line 52: `${dpd.name}_${dpd.version}.json`. */
  function FileName(dpd: Object): string
  {
    JsString(Lookup(dpd, "name")) + "_" + JsString(Lookup(dpd, "version")) + ".json"
  }

  /**
   * Lines 39-63 for one record: a build that throws and a descriptor that
   * fails validation both yield no file.
   */
  function ItemFile(item: Object, csn: Json, appConfig: Json, timestamp: string): Option<DpdFile>
  {
    match DpdBuilder.Descriptor(Obj(item), csn, appConfig, timestamp)
    case Err(_) => None
    case Ok(dpd) => if DpdValidator.ValidateDpd(dpd) then Some(DpdFile(FileName(dpd), dpd, Lookup(item, "name"))) else None
  }

  /** What each record's iteration does. */
  function ItemOutcomes(items: seq<Object>, csn: Json, appConfig: Json, timestamp: string): (r: seq<Option<DpdFile>>)
    ensures |r| == |items|
    ensures forall j :: 0 <= j < |items| ==> r[j] == ItemFile(items[j], csn, appConfig, timestamp)
  {
    seq(|items|, j requires 0 <= j < |items| => ItemFile(items[j], csn, appConfig, timestamp))
  }

  /** Lines 21-25: the context the chain receives; the namespace is read from `appConfig` without a guard. */
  function ChainContext(csn: Json, appConfig: Json, customConfig: Json, validateDate: Json -> Option<string>): Csn.Context
  {
    Csn.Context(csn, Get(appConfig, "ordNamespace"), customConfig, validateDate)
  }

  /** Lines 30-64 on what the chain returned: its exception is rethrown, its records are handled one by one. */
  function FilesFrom(processed: Result<seq<Object>>, csn: Json, appConfig: Json, timestamp: string): Result<seq<DpdFile>>
  {
    var items :- processed;
    Ok(Kept(ItemOutcomes(items, csn, appConfig, timestamp)))
  }

  /**
   * `generateDpdFiles(csn, appConfig)` of lib/dataProducts/dpd/generator.js:
   * reading `appConfig.ordNamespace` throws on a missing `appConfig`.
   */
  function FilesFromChain(csn: Json, appConfig: Json, customConfig: Json, validateDate: Json -> Option<string>, timestamp: string): Result<seq<DpdFile>>
  {
    if IsNullish(appConfig) then Err(TypeError)
    else FilesFrom(Chain.Pipeline(ChainContext(csn, appConfig, customConfig, validateDate)), csn, appConfig, timestamp)
  }

  /** Lines 39-63, the body of the loop for one record. */
  method HandleItem(item: Object, csn: Json, appConfig: Json, timestamp: string) returns (r: Option<DpdFile>)
    ensures r == ItemFile(item, csn, appConfig, timestamp)
  {
    var built := DpdBuilder.BuildDpd(Obj(item), csn, appConfig, timestamp);
    if built.Err? {
      return None;
    }
    var dpd := built.value;
    if !DpdValidator.ValidateDpd(dpd) {
      return None;
    }
    var filename := FileName(dpd);
    r := Some(DpdFile(filename, dpd, Lookup(item, "name")));
  }

  /** Lines 38-64: the records in the chain's order; a skipped record leaves the files so far as they are. */
  method HandleItems(items: seq<Object>, csn: Json, appConfig: Json, timestamp: string) returns (files: seq<DpdFile>)
    ensures files == Kept(ItemOutcomes(items, csn, appConfig, timestamp))
  {
    ghost var outcomes := ItemOutcomes(items, csn, appConfig, timestamp);
    files := [];
    for i := 0 to |items|
      invariant files == Kept(outcomes[..i])
    {
      var file := HandleItem(items[i], csn, appConfig, timestamp);
      assert outcomes[..i + 1][..i] == outcomes[..i];
      if file.None? {
        continue;
      }
      files := files + [file.value];
    }
    assert outcomes[..|items|] == outcomes;
  }

  /** Lines 20-28: a new processor chain runs on the context. */
  method RunChain(ctx: Csn.Context) returns (processed: Result<seq<Object>>)
    ensures processed == Chain.Pipeline(ctx)
  {
    var processor := Chain.CreateDataProductProcessor();
    processed := processor.Process(ctx);
  }

  /** Lines 30-64. */
  method HandleProcessed(processed: Result<seq<Object>>, csn: Json, appConfig: Json, timestamp: string) returns (r: Result<seq<DpdFile>>)
    ensures r == FilesFrom(processed, csn, appConfig, timestamp)
  {
    if processed.Err? {
      return Err(processed.error);
    }
    var items := processed.value;
    if |items| == 0 {
      return Ok([]);
    }
    var files := HandleItems(items, csn, appConfig, timestamp);
    r := Ok(files);
  }

  /** Lines 13-73. */
  method GenerateFromChain(csn: Json, appConfig: Json, customConfig: Json, validateDate: Json -> Option<string>, timestamp: string)
    returns (r: Result<seq<DpdFile>>)
    ensures r == FilesFromChain(csn, appConfig, customConfig, validateDate, timestamp)
  {
    if IsNullish(appConfig) {
      return Err(TypeError);
    }
    var processed := RunChain(ChainContext(csn, appConfig, customConfig, validateDate));
    r := HandleProcessed(processed, csn, appConfig, timestamp);
  }

  /**
   * Lines 38-64: records are handled one by one and in order, so the files
   * of two runs of records are the files of the joined run.
   */
  lemma ItemFilesConcat(a: seq<Object>, b: seq<Object>, csn: Json, appConfig: Json, timestamp: string)
    ensures Kept(ItemOutcomes(a + b, csn, appConfig, timestamp)) ==
            Kept(ItemOutcomes(a, csn, appConfig, timestamp)) + Kept(ItemOutcomes(b, csn, appConfig, timestamp))
  {
    var oa, ob := ItemOutcomes(a, csn, appConfig, timestamp), ItemOutcomes(b, csn, appConfig, timestamp);
    assert ItemOutcomes(a + b, csn, appConfig, timestamp) == oa + ob by {
      forall j | 0 <= j < |a| + |b|
        ensures ItemOutcomes(a + b, csn, appConfig, timestamp)[j] == (oa + ob)[j]
      {
        if j < |a| {
          assert (a + b)[j] == a[j];
        } else {
          assert (a + b)[j] == b[j - |a|];
        }
      }
    }
    KeptConcat(oa, ob);
  }

  /** Lines 46-58 for one record: a file holds a descriptor that passed validation, named after its own name and version. */
  lemma ItemFileValid(item: Object, csn: Json, appConfig: Json, timestamp: string)
    ensures ItemFile(item, csn, appConfig, timestamp).Some? ==>
              var f := ItemFile(item, csn, appConfig, timestamp).value;
              DpdBuilder.Descriptor(Obj(item), csn, appConfig, timestamp) == Ok(f.content) &&
              DpdValidator.ValidateDpd(f.content) && f.filename == FileName(f.content) && f.serviceName == Lookup(item, "name")
  {
  }

  /**
   * Lines 46-58: every file holds a descriptor that passed validation and is
   * named after its own name and version; there is at most one per record.
   */
  lemma ItemFilesValid(items: seq<Object>, csn: Json, appConfig: Json, timestamp: string)
    ensures |Kept(ItemOutcomes(items, csn, appConfig, timestamp))| <= |items|
    ensures forall f :: f in Kept(ItemOutcomes(items, csn, appConfig, timestamp)) ==>
              DpdValidator.ValidateDpd(f.content) && f.filename == FileName(f.content) &&
              IsDpdName(JsString(Lookup(f.content, "name"))) && IsSemVer(JsString(Lookup(f.content, "version")))
  {
    var outcomes := ItemOutcomes(items, csn, appConfig, timestamp);
    KeptFrom(outcomes);
    forall f: DpdFile | f in Kept(outcomes)
      ensures DpdValidator.ValidateDpd(f.content) && f.filename == FileName(f.content)
    {
      var j :| 0 <= j < |outcomes| && outcomes[j] == Some(f);
      ItemFileValid(items[j], csn, appConfig, timestamp);
    }
  }

  /**
   * A record yields a file exactly when its descriptor builds and the
   * record's name, version, title, type and category pass the validator;
   * a record without a truthy name never does.
   */
  lemma ItemKept(item: Object, csn: Json, appConfig: Json, timestamp: string)
    ensures ItemFile(item, csn, appConfig, timestamp).Some? <==>
              DpdBuilder.Descriptor(Obj(item), csn, appConfig, timestamp).Ok? &&
              IsDpdName(JsString(Lookup(item, "name"))) && Truthy(Lookup(item, "name")) &&
              Lookup(item, "version").Str? && IsSemVer(Lookup(item, "version").s) && Truthy(Lookup(item, "title")) &&
              IsOneOf(Lookup(item, "type"), DpdValidator.VALID_TYPES) &&
              (!Truthy(Lookup(item, "category")) || IsOneOf(Lookup(item, "category"), DpdValidator.VALID_CATEGORIES))
    ensures !Truthy(Lookup(item, "name")) ==> ItemFile(item, csn, appConfig, timestamp).None?
  {
    var built := DpdBuilder.Descriptor(Obj(item), csn, appConfig, timestamp);
    if built.Ok? {
      DpdBuilder.DescriptorIdentity(Obj(item), csn, appConfig, timestamp, built.value);
      DpdValidator.ValidBuilt(built.value, Obj(item));
    }
  }

  // ---------------------------------------------------------------------------
  // Records named after their service
  // ---------------------------------------------------------------------------

  /**
   * The record the loop of lines 39-63 evidently expects: the chain's records
   * carry `serviceName` but no `name`, and line 57 files the descriptor
   * under `serviceName: dataProduct.name`, so a record without a name takes
   * its service name as name.
   */
  function NamedItem(item: Object): (r: Object)
    ensures Truthy(Lookup(item, "name")) ==> r == item
    ensures !Truthy(Lookup(item, "name")) ==> Lookup(r, "name") == Lookup(item, "serviceName")
  {
    if Truthy(Lookup(item, "name")) then item else Set(item, "name", Lookup(item, "serviceName"))
  }

  /** Naming a record changes no other property. */
  lemma NamedItemLookup(item: Object, k: string)
    requires k != "name"
    ensures Lookup(NamedItem(item), k) == Lookup(item, k)
  {
  }

  /** One record's iteration on the record named after its service. */
  function NamedItemFile(item: Object, csn: Json, appConfig: Json, timestamp: string): Option<DpdFile>
  {
    ItemFile(NamedItem(item), csn, appConfig, timestamp)
  }

  /**
   * A chain record without a name never yields a file as written, while the
   * same record named after its service does once its descriptor builds and
   * its fields pass the validator; the file is named after the service and
   * the version.
   */
  lemma NamedItemKept(item: Object, csn: Json, appConfig: Json, timestamp: string)
    requires !Truthy(Lookup(item, "name"))
    requires Lookup(item, "serviceName").Str? && IsDpdName(Lookup(item, "serviceName").s)
    requires Lookup(item, "version").Str? && IsSemVer(Lookup(item, "version").s) && Truthy(Lookup(item, "title"))
    requires IsOneOf(Lookup(item, "type"), DpdValidator.VALID_TYPES)
    requires !Truthy(Lookup(item, "category")) || IsOneOf(Lookup(item, "category"), DpdValidator.VALID_CATEGORIES)
    requires DpdBuilder.Descriptor(Obj(NamedItem(item)), csn, appConfig, timestamp).Ok?
    ensures ItemFile(item, csn, appConfig, timestamp).None?
    ensures NamedItemFile(item, csn, appConfig, timestamp).Some?
    ensures NamedItemFile(item, csn, appConfig, timestamp).value.filename ==
              Lookup(item, "serviceName").s + "_" + Lookup(item, "version").s + ".json"
    ensures NamedItemFile(item, csn, appConfig, timestamp).value.serviceName == Lookup(item, "serviceName")
  {
    ItemKept(item, csn, appConfig, timestamp);
    var named := NamedItem(item);
    var name := Lookup(item, "serviceName");
    assert Lookup(named, "name") == name && JsString(name) == name.s && Truthy(name);
    NamedItemLookup(item, "version"); NamedItemLookup(item, "title");
    NamedItemLookup(item, "type"); NamedItemLookup(item, "category");
    ItemKept(named, csn, appConfig, timestamp);
    var dpd := DpdBuilder.Descriptor(Obj(named), csn, appConfig, timestamp).value;
    DpdBuilder.DescriptorIdentity(Obj(named), csn, appConfig, timestamp, dpd);
    assert JsString(Lookup(dpd, "version")) == Lookup(item, "version").s;
  }

  /** Every item that yields a value has it among the values kept. */
  lemma KeptHas<T>(a: seq<Option<T>>, j: nat)
    requires j < |a| && a[j].Some?
    ensures a[j].value in Kept(a)
  {
    assert a == (a[..j] + [a[j]]) + a[j + 1..];
    KeptConcat(a[..j] + [a[j]], a[j + 1..]);
    KeptConcat(a[..j], [a[j]]);
    assert Kept([a[j]]) == [a[j].value] by {
      assert [a[j]][..0] == [];
    }
  }

  /** The records of a run, each named after its service when it has no name. */
  function NamedItems(items: seq<Object>): (r: seq<Object>)
    ensures |r| == |items|
    ensures forall j :: 0 <= j < |items| ==> r[j] == NamedItem(items[j])
  {
    seq(|items|, j requires 0 <= j < |items| => NamedItem(items[j]))
  }

  /** Lines 30-64 with every record named after its service before it is built. */
  function NamedFilesFrom(processed: Result<seq<Object>>, csn: Json, appConfig: Json, timestamp: string): Result<seq<DpdFile>>
  {
    var items :- processed;
    Ok(Kept(ItemOutcomes(NamedItems(items), csn, appConfig, timestamp)))
  }

  /**
   * The corrected run keeps, for every record, the file its named copy
   * yields (so every record `NamedItemKept` admits contributes one), and
   * every file it returns passed validation and is named after the
   * descriptor's name and version.
   */
  lemma NamedFilesKept(items: seq<Object>, csn: Json, appConfig: Json, timestamp: string)
    ensures NamedFilesFrom(Ok(items), csn, appConfig, timestamp).Ok?
    ensures var files := NamedFilesFrom(Ok(items), csn, appConfig, timestamp).value;
            |files| <= |items| &&
            (forall j :: 0 <= j < |items| && NamedItemFile(items[j], csn, appConfig, timestamp).Some? ==>
               NamedItemFile(items[j], csn, appConfig, timestamp).value in files) &&
            (forall f :: f in files ==> DpdValidator.ValidateDpd(f.content) && f.filename == FileName(f.content))
  {
    var named := NamedItems(items);
    var outcomes := ItemOutcomes(named, csn, appConfig, timestamp);
    ItemFilesValid(named, csn, appConfig, timestamp);
    forall j | 0 <= j < |items| && NamedItemFile(items[j], csn, appConfig, timestamp).Some?
      ensures NamedItemFile(items[j], csn, appConfig, timestamp).value in Kept(outcomes)
    {
      assert outcomes[j] == NamedItemFile(items[j], csn, appConfig, timestamp);
      KeptHas(outcomes, j);
    }
  }
}

