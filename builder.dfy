/**
 * The ORD entry builder (lib/dataProducts/builder.js): a processed record
 * (a "config") becomes an ORD data product entry with defaults, optional
 * fields, output ports derived from the service definition, and a
 * required-field check; the batch builder drops the entries that fail.
 */
module Builder {
  import opened Js
  import opened Text
  import opened Constants
  import opened Csn

  /** The optional keys attached only when their value has a positive `length`. */
  const LIST_KEYS := {"tags", "industry", "lineOfBusiness", "countries", "correlationIds", "successors",
                      "changelogEntries", "dataProductLinks", "links", "entityTypes"}

  // ---------------------------------------------------------------------------
  // Output ports

  /** A port entry `{ ordId }`. */
  function Port(ordId: string): Json
  {
    Obj([Field("ordId", Str(ordId))])
  }

  /**
   * `elem.kind === "event" || (elem.target && csn.definitions[elem.target]?.kind === "event")`
   * for an element that is not null or undefined.
   */
  predicate IsEvent(elem: Json, defs: Json)
  {
    Get(elem, "kind") == Str("event") ||
    (Truthy(Get(elem, "target")) && Get(Get(defs, JsString(Get(elem, "target"))), "kind") == Str("event"))
  }

  /**
   * `elements.some(...)`: true at the first event; reading `kind` of a null
   * or undefined element met before any event throws.
   */
  function HasEvent(elems: seq<Json>, defs: Json): (r: Result<bool>)
    ensures r == Ok(true) <==> exists j :: 0 <= j < |elems| && !IsNullish(elems[j]) && IsEvent(elems[j], defs)
                                                && forall i :: 0 <= i < j ==> !IsNullish(elems[i])
    ensures r == Ok(false) <==> forall j :: 0 <= j < |elems| ==> !IsNullish(elems[j]) && !IsEvent(elems[j], defs)
    ensures r.Err? ==> r.error == TypeError
    decreases |elems|
  {
    if elems == [] then Ok(false)
    else if IsNullish(elems[0]) then Err(TypeError)
    else if IsEvent(elems[0], defs) then Ok(true)
    else
      var r := HasEvent(elems[1..], defs);
      assert forall j :: 0 < j < |elems| ==> elems[j] == elems[1..][j - 1];
      r
  }

  /** The loop behind `.some`, stopping at the first event or the first throw. */
  method SomeEvent(elems: seq<Json>, defs: Json) returns (r: Result<bool>)
    ensures r == HasEvent(elems, defs)
  {
    var i := 0;
    while i < |elems|
      invariant 0 <= i <= |elems|
      invariant HasEvent(elems, defs) == HasEvent(elems[i..], defs)
    {
      assert elems[i..][1..] == elems[i + 1..];
      if IsNullish(elems[i]) {
        return Err(TypeError);
      }
      if IsEvent(elems[i], defs) {
        return Ok(true);
      }
      i := i + 1;
    }
    assert elems[i..] == [];
    return Ok(false);
  }

  /** `csn.definitions[serviceName]`, or undefined when `csn` has no such definition. */
  function ServiceDefinition(serviceName: Json, csn: Json): Json
  {
    Get(Get(csn, "definitions"), JsString(serviceName))
  }

  /** The namespace of an entry id: the text before its first ':'. */
  function Namespace(id: string): (ns: string)
    ensures ':' !in ns && ns <= id
    ensures ':' in id ==> id[|ns|] == ':'
  {
    BeforeFirst(id, ':')
  }

  /** The value `generateOutputPorts(serviceName, csn, dataProductId)` returns. */
  function OutputPorts(serviceName: Json, csn: Json, id: Json): Result<seq<Json>>
  {
    var service :- Definition(csn, serviceName);
    if !Truthy(service) then Ok([])
    else if !id.Str? then Err(TypeError)
    else
      var ns := Namespace(id.s);
      var name := JsString(serviceName);
      var events :- HasEvent(ElementValues(service), Get(csn, "definitions"));
      Ok(PortsFor(ns, name, events))
  }

  /** The API port, then the event port when the service has events. */
  function PortsFor(ns: string, name: string, events: bool): seq<Json>
  {
    [Port(ns + ":apiResource:" + name + ":v1")] + if events then [Port(ns + ":eventResource:" + name + ":v1")] else []
  }

  /** `generateOutputPorts`: pushes the API port, then the event port when an element is an event. */
  method GenerateOutputPorts(serviceName: Json, csn: Json, id: Json) returns (r: Result<seq<Json>>)
    ensures r == OutputPorts(serviceName, csn, id)
  {
    var service := Definition(csn, serviceName);
    if service.Err? {
      return Err(service.error);
    }
    var ports: seq<Json> := [];
    if !Truthy(service.value) {
      return Ok(ports);
    }
    if !id.Str? {
      return Err(TypeError);
    }
    var ns := Namespace(id.s);
    var name := JsString(serviceName);
    ports := ports + [Port(ns + ":apiResource:" + name + ":v1")];
    var events := SomeEvent(ElementValues(service.value), Get(csn, "definitions"));
    if events.Err? {
      return Err(events.error);
    }
    if events.value {
      ports := ports + [Port(ns + ":eventResource:" + name + ":v1")];
    }
    assert ports == PortsFor(ns, name, events.value);
    return Ok(ports);
  }

  /**
   * The ports generated for a service: none when the model has no such
   * definition; otherwise the API port `<ns>:apiResource:<service>:v1`,
   * followed by `<ns>:eventResource:<service>:v1` exactly when an element
   * is an event. It throws when the model has no definitions, when the id
   * is not a string, or when an element before any event is null.
   */
  lemma OutputPortsShape(serviceName: Json, csn: Json, id: Json)
    ensures var r := OutputPorts(serviceName, csn, id);
            var service := ServiceDefinition(serviceName, csn);
            var events := HasEvent(ElementValues(service), Get(csn, "definitions"));
            (r.Err? <==> IsNullish(csn) || IsNullish(Get(csn, "definitions")) ||
                         (Truthy(service) && (!id.Str? || events.Err?))) &&
            (r.Ok? && !Truthy(service) ==> r.value == []) &&
            (r.Ok? && Truthy(service) ==>
               var ns := Namespace(id.s);
               var name := JsString(serviceName);
               (|r.value| == 2 <==> events == Ok(true)) &&
               (|r.value| == 1 <==> events == Ok(false)) &&
               r.value[0] == Port(ns + ":apiResource:" + name + ":v1") &&
               (|r.value| == 2 ==> r.value[1] == Port(ns + ":eventResource:" + name + ":v1")))
  {
  }

  // ---------------------------------------------------------------------------
  // Entry construction

  /** The value the basic structure gives the key `k` of `BASE_KEYS`, with its default. */
  function BaseValue(config: Json, k: string): Json
  {
    var title := Get(config, "title");
    if k == "ordId" then Get(config, "id")
    else if k == "localId" then Or(Get(config, "localId"), Get(config, "serviceName"))
    else if k == "shortDescription" || k == "description" then Or(Get(config, "description"), title)
    else if k == "releaseStatus" then Or(Get(config, "releaseStatus"), Str(DEFAULT_RELEASE_STATUS))
    else if k == "responsible" then Or(Get(config, "responsible"), Str(DEFAULT_RESPONSIBLE))
    else if k == "category" then Or(Get(config, "category"), Str(DEFAULT_CATEGORY))
    else if k == "outputPorts" then Arr([])
    else if k == "inputPorts" then Or(Get(config, "inputPorts"), Arr([]))
    else Get(config, k)
  }

  /** The mapped fields of the basic structure, in order. */
  function MappedFields(config: Json): (o: Object)
    ensures |o| == |BASE_KEYS|
    ensures forall i :: 0 <= i < |BASE_KEYS| ==> o[i] == Field(BASE_KEYS[i], BaseValue(config, BASE_KEYS[i]))
  {
    seq(|BASE_KEYS|, i requires 0 <= i < |BASE_KEYS| => Field(BASE_KEYS[i], BaseValue(config, BASE_KEYS[i])))
  }

  /**
   * The basic structure: the mapped fields, then the id under the computed
   * merge key, which as in any object literal overwrites an earlier
   * property of the same name in place.
   */
  function BaseFields(config: Json): Object
  {
    Set(MappedFields(config), CONTENT_MERGE_KEY, Get(config, "id"))
  }

  /** The optional value under `k`: a list field only when it has a positive length, undefined otherwise. */
  function OptionalValue(config: Json, k: string): Json
  {
    var v := Get(config, k);
    if k in LIST_KEYS && !HasPositiveLength(v) then Undef else v
  }

  /** The `optionalFields` object, in its declaration order. */
  function OptionalFields(config: Json): (fs: seq<Field>)
    ensures |fs| == |OPTIONAL_KEYS|
    ensures forall i :: 0 <= i < |fs| ==> fs[i] == Field(OPTIONAL_KEYS[i], OptionalValue(config, OPTIONAL_KEYS[i]))
  {
    seq(|OPTIONAL_KEYS|, i requires 0 <= i < |OPTIONAL_KEYS| => Field(OPTIONAL_KEYS[i], OptionalValue(config, OPTIONAL_KEYS[i])))
  }

  /** The entries of `fields` written into `dp` in order, skipping undefined values. */
  function Attached(dp: Object, fields: seq<Field>): Object
    decreases |fields|
  {
    if fields == [] then dp
    else Attached(if fields[0].value != Undef then Set(dp, fields[0].key, fields[0].value) else dp, fields[1..])
  }

  /** `Object.entries(optionalFields).forEach(...)`: writes every defined value. */
  method AttachOptional(dp: Object, fields: seq<Field>) returns (r: Object)
    ensures r == Attached(dp, fields)
  {
    r := dp;
    var i := 0;
    while i < |fields|
      invariant 0 <= i <= |fields|
      invariant Attached(dp, fields) == Attached(r, fields[i..])
    {
      assert fields[i..][1..] == fields[i + 1..];
      if fields[i].value != Undef {
        r := Set(r, fields[i].key, fields[i].value);
      }
      i := i + 1;
    }
    assert fields[i..] == [];
  }

  /**
   * With distinct names, a property named in `fields` reads its value when
   * that is defined and what it read before otherwise; it is present
   * afterwards exactly when it was before or its value is defined; a
   * property not named there is untouched.
   */
  lemma {:induction false} AttachedLookup(dp: Object, fields: seq<Field>, k: string)
    requires UniqueKeys(fields)
    ensures forall j :: 0 <= j < |fields| && fields[j].key == k ==>
              Lookup(Attached(dp, fields), k) == (if fields[j].value != Undef then fields[j].value else Lookup(dp, k)) &&
              (HasKey(Attached(dp, fields), k) <==> HasKey(dp, k) || fields[j].value != Undef)
    ensures !HasKey(fields, k) ==>
              Lookup(Attached(dp, fields), k) == Lookup(dp, k) && (HasKey(Attached(dp, fields), k) <==> HasKey(dp, k))
    decreases |fields|
  {
    if fields != [] {
      var f := fields[0];
      var dp' := if f.value != Undef then Set(dp, f.key, f.value) else dp;
      var rest := fields[1..];
      assert UniqueKeys(rest) by {
        forall i, j | 0 <= i < j < |rest| ensures rest[i].key != rest[j].key {
          assert rest[i] == fields[i + 1] && rest[j] == fields[j + 1];
        }
      }
      AttachedLookup(dp', rest, k);
      SetHasKey(dp, f.key, f.value, k);
      HasKeyCons(fields, k);
      if f.key == k {
        forall i | 0 <= i < |rest| ensures rest[i].key != k {
          assert rest[i] == fields[i + 1];
        }
        forall j | 0 <= j < |fields| && fields[j].key == k ensures j == 0 {
        }
      } else {
        forall j | 0 <= j < |fields| && fields[j].key == k
          ensures Lookup(Attached(dp, fields), k) == (if fields[j].value != Undef then fields[j].value else Lookup(dp, k))
          ensures HasKey(Attached(dp, fields), k) <==> HasKey(dp, k) || fields[j].value != Undef
        {
          assert rest[j - 1] == fields[j];
        }
      }
    }
  }

  lemma OptionalKeysDistinct()
    ensures forall i, j :: 0 <= i < j < |OPTIONAL_KEYS| ==> OPTIONAL_KEYS[i] != OPTIONAL_KEYS[j]
  {
  }

  lemma BaseKeysDistinct()
    ensures forall i, j :: 0 <= i < j < |BASE_KEYS| ==> BASE_KEYS[i] != BASE_KEYS[j]
  {
  }

  /** The basic structure and the optional fields share no name. */
  lemma BaseKeysNotOptional(k: string)
    requires k in BASE_KEYS
    ensures k !in OPTIONAL_KEYS
  {
    var i :| 0 <= i < |BASE_KEYS| && BASE_KEYS[i] == k;
    forall j | 0 <= j < |OPTIONAL_KEYS| ensures OPTIONAL_KEYS[j] != BASE_KEYS[i] {
      assert |OPTIONAL_KEYS[j]| != |BASE_KEYS[i]| || OPTIONAL_KEYS[j][0] != BASE_KEYS[i][0] || OPTIONAL_KEYS[j][1] != BASE_KEYS[i][1];
    }
  }

  /** The basic structure with the optional fields attached. */
  function Shaped(config: Json): Object
  {
    Attached(BaseFields(config), OptionalFields(config))
  }

  /**
   * The entry before validation: it throws when the config is null or
   * undefined, or when the output ports are generated and that throws.
   */
  function Entry(config: Json, csn: Json): Result<Object>
  {
    if IsNullish(config) then Err(TypeError)
    else
      var serviceName := Get(config, "serviceName");
      var generated :- if Truthy(serviceName) && Truthy(csn) then
                         var ports :- OutputPorts(serviceName, csn, Get(config, "id"));
                         Ok(Set(Shaped(config), "outputPorts", Arr(ports)))
                       else Ok(Shaped(config));
      var explicit := Get(config, "outputPorts");
      Ok(if Truthy(explicit) && HasPositiveLength(explicit) then Set(generated, "outputPorts", explicit) else generated)
  }

  // ---------------------------------------------------------------------------
  // Validation

  /** The fields `validateDataProduct` requires to be truthy, in its order. */
  const REQUIRED_FIELDS := ["ordId", "title", "version", "type", "visibility", "responsible"]
  const REQUIRED_SUFFIX := " is required"
  const PORT_REQUIRED := "at least one output port is required"

  /** `"<field> is required"` */
  function RequiredMessage(field: string): string
  {
    field + REQUIRED_SUFFIX
  }

  /** A message names its field at its start. */
  lemma RequiredMessageNames(field: string)
    ensures |RequiredMessage(field)| == |field| + |REQUIRED_SUFFIX|
    ensures RequiredMessage(field)[..|field|] == field
  {
    assert (field + REQUIRED_SUFFIX)[..|field|] == field;
  }

  /** `!(!ports || ports.length === 0)` */
  predicate HasPorts(ports: Json)
  {
    Truthy(ports) && Length(ports) != Num(0)
  }

  /** The entry passes the required-field check. */
  predicate IsValid(dp: Object)
  {
    Truthy(Lookup(dp, "ordId")) && Truthy(Lookup(dp, "title")) && Truthy(Lookup(dp, "version")) &&
    Truthy(Lookup(dp, "type")) && Truthy(Lookup(dp, "visibility")) && Truthy(Lookup(dp, "responsible")) &&
    HasPorts(Lookup(dp, "outputPorts"))
  }

  /** The message for a required field `dp` lacks. */
  function FieldCheck(dp: Object, field: string): seq<string>
  {
    if Truthy(Lookup(dp, field)) then [] else [RequiredMessage(field)]
  }

  /** The messages `validateDataProduct` returns, in its order. */
  function ValidationErrors(dp: Object): seq<string>
  {
    FieldCheck(dp, "ordId") + FieldCheck(dp, "title") + FieldCheck(dp, "version") + FieldCheck(dp, "type") +
    FieldCheck(dp, "visibility") + FieldCheck(dp, "responsible") +
    (if HasPorts(Lookup(dp, "outputPorts")) then [] else [PORT_REQUIRED])
  }

  /** The check reports nothing exactly when the entry is valid, and at most one message per requirement. */
  lemma ValidationEmptyIffValid(dp: Object)
    ensures ValidationErrors(dp) == [] <==> IsValid(dp)
    ensures |ValidationErrors(dp)| <= |REQUIRED_FIELDS| + 1
  {
  }

  /** The message naming `f` comes from the check of `g` exactly when `f` is `g` and `g` is missing. */
  lemma FieldCheckNames(dp: Object, f: string, g: string)
    ensures RequiredMessage(f) in FieldCheck(dp, g) <==> f == g && !Truthy(Lookup(dp, g))
    ensures |g| < 24 ==> PORT_REQUIRED !in FieldCheck(dp, g)
  {
    RequiredMessageNames(f);
    RequiredMessageNames(g);
    if RequiredMessage(f) == RequiredMessage(g) {
      assert f == RequiredMessage(f)[..|f|] == RequiredMessage(g)[..|g|] == g;
    }
  }

  /**
   * Each required field is reported exactly when it is not truthy, and the
   * output-port message exactly when there are no ports.
   */
  lemma ValidationMessages(dp: Object, f: string)
    requires f in REQUIRED_FIELDS
    ensures RequiredMessage(f) in ValidationErrors(dp) <==> !Truthy(Lookup(dp, f))
    ensures PORT_REQUIRED in ValidationErrors(dp) <==> !HasPorts(Lookup(dp, "outputPorts"))
  {
    FieldCheckNames(dp, f, "ordId");
    FieldCheckNames(dp, f, "title");
    FieldCheckNames(dp, f, "version");
    FieldCheckNames(dp, f, "type");
    FieldCheckNames(dp, f, "visibility");
    FieldCheckNames(dp, f, "responsible");
    RequiredMessageNames(f);
    assert |RequiredMessage(f)| < |PORT_REQUIRED|;
  }

  /** `validateDataProduct`: one push per failed requirement. */
  method ValidateDataProduct(dp: Object) returns (errors: seq<string>)
    ensures errors == ValidationErrors(dp)
  {
    errors := [];
    if !Truthy(Lookup(dp, "ordId")) { errors := errors + [RequiredMessage("ordId")]; }
    ghost var expected := FieldCheck(dp, "ordId");
    assert errors == expected;
    if !Truthy(Lookup(dp, "title")) { errors := errors + [RequiredMessage("title")]; }
    expected := expected + FieldCheck(dp, "title");
    assert errors == expected;
    if !Truthy(Lookup(dp, "version")) { errors := errors + [RequiredMessage("version")]; }
    expected := expected + FieldCheck(dp, "version");
    assert errors == expected;
    if !Truthy(Lookup(dp, "type")) { errors := errors + [RequiredMessage("type")]; }
    expected := expected + FieldCheck(dp, "type");
    assert errors == expected;
    if !Truthy(Lookup(dp, "visibility")) { errors := errors + [RequiredMessage("visibility")]; }
    expected := expected + FieldCheck(dp, "visibility");
    assert errors == expected;
    if !Truthy(Lookup(dp, "responsible")) { errors := errors + [RequiredMessage("responsible")]; }
    expected := expected + FieldCheck(dp, "responsible");
    assert errors == expected;
    var ports := Lookup(dp, "outputPorts");
    if !Truthy(ports) || Length(ports) == Num(0) {
      errors := errors + [PORT_REQUIRED];
    }
  }

  /** The message `buildDataProduct` throws for an entry with validation errors. */
  function ValidationMessage(id: Json, errors: seq<string>): string
  {
    "Data product " + JsString(id) + " has validation errors: " + Join(errors, ", ")
  }

  /** The value `buildDataProduct(config, csn)` returns, or what it throws. */
  function Built(config: Json, csn: Json): Result<Object>
  {
    var dp :- Entry(config, csn);
    var errors := ValidationErrors(dp);
    if |errors| > 0 then Err(Thrown(ValidationMessage(Get(config, "id"), errors))) else Ok(dp)
  }

  /** `buildDataProduct`: the basic structure, the optional fields, the ports, then the check. */
  method BuildDataProduct(config: Json, csn: Json) returns (r: Result<Object>)
    ensures r == Built(config, csn)
  {
    if IsNullish(config) {
      return Err(TypeError);
    }
    var dp := BaseFields(config);
    dp := AttachOptional(dp, OptionalFields(config));
    var serviceName := Get(config, "serviceName");
    if Truthy(serviceName) && Truthy(csn) {
      var ports := GenerateOutputPorts(serviceName, csn, Get(config, "id"));
      if ports.Err? {
        return Err(ports.error);
      }
      dp := Set(dp, "outputPorts", Arr(ports.value));
    }
    var explicit := Get(config, "outputPorts");
    if Truthy(explicit) && HasPositiveLength(explicit) {
      dp := Set(dp, "outputPorts", explicit);
    }
    assert Entry(config, csn) == Ok(dp);
    var errors := ValidateDataProduct(dp);
    if |errors| > 0 {
      return Err(Thrown(ValidationMessage(Get(config, "id"), errors)));
    }
    return Ok(dp);
  }

  // ---------------------------------------------------------------------------
  // Entry properties

  /** Each field of the basic structure reads the value it was given. */
  lemma BaseLookup(config: Json, k: string)
    requires k in BASE_KEYS
    ensures Lookup(BaseFields(config), k) == BaseValue(config, k)
  {
    BaseKeysDistinct();
    var i :| 0 <= i < |BASE_KEYS| && BASE_KEYS[i] == k;
    LookupAt(MappedFields(config), i);
    if k == CONTENT_MERGE_KEY {
      assert k == "ordId";
    }
  }

  /** The merge key reads the id. */
  lemma MergeKeyLookup(config: Json)
    ensures Lookup(BaseFields(config), CONTENT_MERGE_KEY) == Get(config, "id")
  {
  }

  /** Attaching the optional fields leaves the other names as the basic structure has them. */
  lemma ShapedKeepsBase(config: Json, k: string)
    requires k !in OPTIONAL_KEYS
    ensures Lookup(Shaped(config), k) == Lookup(BaseFields(config), k)
  {
    var fields := OptionalFields(config);
    OptionalKeysDistinct();
    forall i | 0 <= i < |fields| ensures fields[i].key != k {
      assert fields[i].key == OPTIONAL_KEYS[i];
    }
    AttachedLookup(BaseFields(config), fields, k);
  }

  /** Only `outputPorts` differs between the attached structure and the entry. */
  lemma EntryKeepsShaped(config: Json, csn: Json, k: string)
    requires Entry(config, csn).Ok? && k != "outputPorts"
    ensures Lookup(Entry(config, csn).value, k) == Lookup(Shaped(config), k)
    ensures HasKey(Entry(config, csn).value, k) <==> HasKey(Shaped(config), k)
  {
    var dp := Shaped(config);
    var serviceName := Get(config, "serviceName");
    var explicit := Get(config, "outputPorts");
    var generated := dp;
    if Truthy(serviceName) && Truthy(csn) {
      var ports := OutputPorts(serviceName, csn, Get(config, "id")).value;
      generated := Set(dp, "outputPorts", Arr(ports));
      SetHasKey(dp, "outputPorts", Arr(ports), k);
    }
    SetHasKey(generated, "outputPorts", explicit, k);
  }

  /** A field of the basic structure other than `outputPorts` keeps its mapped value in the entry. */
  lemma EntryBase(config: Json, csn: Json, k: string)
    requires Entry(config, csn).Ok? && k in BASE_KEYS && k != "outputPorts"
    ensures Lookup(Entry(config, csn).value, k) == BaseValue(config, k)
  {
    BaseLookup(config, k);
    BaseKeysNotOptional(k);
    ShapedKeepsBase(config, k);
    EntryKeepsShaped(config, csn, k);
  }

  /**
   * The field mapping: `ordId` and the merge key hold the id, `localId`
   * falls back to the service name, and both descriptions to the title.
   */
  lemma EntryIdentity(config: Json, csn: Json)
    requires Entry(config, csn).Ok?
    ensures var dp := Entry(config, csn).value;
            Lookup(dp, "ordId") == Get(config, "id") &&
            Lookup(dp, CONTENT_MERGE_KEY) == Get(config, "id") &&
            Lookup(dp, "localId") == Or(Get(config, "localId"), Get(config, "serviceName")) &&
            Lookup(dp, "title") == Get(config, "title") &&
            Lookup(dp, "description") == Or(Get(config, "description"), Get(config, "title")) &&
            Lookup(dp, "shortDescription") == Lookup(dp, "description")
  {
    EntryBase(config, csn, "ordId");
    EntryBase(config, csn, "localId");
    EntryCopy(config, csn, "title");
    EntryBase(config, csn, "description");
    EntryBase(config, csn, "shortDescription");
    EntryMergeKey(config, csn);
  }

  /** The merge key keeps the id through the optional fields and the ports. */
  lemma EntryMergeKey(config: Json, csn: Json)
    requires Entry(config, csn).Ok?
    ensures Lookup(Entry(config, csn).value, CONTENT_MERGE_KEY) == Get(config, "id")
  {
    MergeKeyLookup(config);
    MergeKeyNotOptional();
    ShapedKeepsBase(config, CONTENT_MERGE_KEY);
    EntryKeepsShaped(config, csn, CONTENT_MERGE_KEY);
  }

  /** The merge key is neither an optional field nor the ports. */
  lemma MergeKeyNotOptional()
    ensures CONTENT_MERGE_KEY !in OPTIONAL_KEYS && CONTENT_MERGE_KEY != "outputPorts"
  {
    if CONTENT_MERGE_KEY == "ordId" {
      BaseKeysNotOptional("ordId");
    } else {
      assert "outputPorts" == BASE_KEYS[12];
    }
  }

  /**
   * Release status, responsible, category and input ports take their
   * defaults, so `responsible` is always set.
   */
  lemma EntryDefaults(config: Json, csn: Json)
    requires Entry(config, csn).Ok?
    ensures var dp := Entry(config, csn).value;
            Lookup(dp, "releaseStatus") == Or(Get(config, "releaseStatus"), Str(DEFAULT_RELEASE_STATUS)) &&
            Lookup(dp, "responsible") == Or(Get(config, "responsible"), Str(DEFAULT_RESPONSIBLE)) &&
            Lookup(dp, "category") == Or(Get(config, "category"), Str(DEFAULT_CATEGORY)) &&
            Lookup(dp, "inputPorts") == Or(Get(config, "inputPorts"), Arr([])) &&
            Truthy(Lookup(dp, "responsible"))
  {
    EntryBase(config, csn, "releaseStatus");
    EntryBase(config, csn, "responsible");
    EntryBase(config, csn, "category");
    EntryBase(config, csn, "inputPorts");
  }

  /** `version`, `visibility`, `partOfPackage` and `type` are copied as they are. */
  lemma EntryCopies(config: Json, csn: Json)
    requires Entry(config, csn).Ok?
    ensures var dp := Entry(config, csn).value;
            Lookup(dp, "version") == Get(config, "version") &&
            Lookup(dp, "visibility") == Get(config, "visibility") &&
            Lookup(dp, "partOfPackage") == Get(config, "partOfPackage") &&
            Lookup(dp, "type") == Get(config, "type")
  {
    EntryCopy(config, csn, "version");
    EntryCopy(config, csn, "visibility");
    EntryCopy(config, csn, "partOfPackage");
    EntryCopy(config, csn, "type");
  }

  lemma EntryCopy(config: Json, csn: Json, k: string)
    requires Entry(config, csn).Ok? && (k == "version" || k == "visibility" || k == "partOfPackage" || k == "type" || k == "title")
    ensures Lookup(Entry(config, csn).value, k) == Get(config, k)
  {
    BaseValueCopied(config, k);
    EntryBase(config, csn, k);
  }

  /** The fields of the basic structure that the config gives as they are. */
  lemma BaseValueCopied(config: Json, k: string)
    requires k == "version" || k == "visibility" || k == "partOfPackage" || k == "type" || k == "title"
    ensures k in BASE_KEYS && k != "outputPorts" && BaseValue(config, k) == Get(config, k)
  {
  }

  /**
   * An optional field is present exactly when its value is defined (a list
   * field: when it has a positive length), and then holds the config's value.
   */
  lemma EntryOptional(config: Json, csn: Json, k: string)
    requires Entry(config, csn).Ok? && k in OPTIONAL_KEYS
    ensures var dp := Entry(config, csn).value;
            var v := Get(config, k);
            (HasKey(dp, k) <==> v != Undef && (k in LIST_KEYS ==> HasPositiveLength(v))) &&
            Lookup(dp, k) == (if k in LIST_KEYS && !HasPositiveLength(v) then Undef else v)
  {
    BaseKeysNotOptional("outputPorts");
    ShapedOptional(config, k);
    EntryKeepsShaped(config, csn, k);
  }

  /** No optional key is in the basic structure. */
  lemma BaseLacksOptional(config: Json, k: string)
    requires k in OPTIONAL_KEYS
    ensures !HasKey(BaseFields(config), k)
  {
    var mapped := MappedFields(config);
    forall i | 0 <= i < |BASE_KEYS| ensures mapped[i].key != k {
      BaseKeysNotOptional(BASE_KEYS[i]);
    }
    SetHasKey(mapped, CONTENT_MERGE_KEY, Get(config, "id"), k);
  }

  /** After attaching, an optional key holds its optional value, and is present exactly when that is defined. */
  lemma ShapedOptional(config: Json, k: string)
    requires k in OPTIONAL_KEYS
    ensures Lookup(Shaped(config), k) == OptionalValue(config, k)
    ensures HasKey(Shaped(config), k) <==> OptionalValue(config, k) != Undef
  {
    var base := BaseFields(config);
    var fields := OptionalFields(config);
    BaseLacksOptional(config, k);
    LookupMissing(base, k);
    OptionalKeysDistinct();
    var j :| 0 <= j < |OPTIONAL_KEYS| && OPTIONAL_KEYS[j] == k;
    assert fields[j].key == k;
    AttachedLookup(base, fields, k);
  }

  /**
   * Non-empty explicit output ports replace the generated ones; otherwise
   * the ports are the generated ones when a service name and a model are
   * given, and the empty list when not. Generation happens, and may throw,
   * even when explicit ports replace its result.
   */
  lemma EntryOutputPorts(config: Json, csn: Json)
    ensures var e := Entry(config, csn);
            var serviceName := Get(config, "serviceName");
            var generate := Truthy(serviceName) && Truthy(csn);
            var explicit := Get(config, "outputPorts");
            (e.Err? <==> IsNullish(config) || (generate && OutputPorts(serviceName, csn, Get(config, "id")).Err?)) &&
            (e.Ok? ==>
               Lookup(e.value, "outputPorts") ==
                 if Truthy(explicit) && HasPositiveLength(explicit) then explicit
                 else if generate then Arr(OutputPorts(serviceName, csn, Get(config, "id")).value)
                 else Arr([]))
  {
    if !IsNullish(config) {
      BaseLookup(config, "outputPorts");
      ShapedKeepsBase(config, "outputPorts");
    }
  }

  /** The default `responsible` means the check never reports it missing. */
  lemma ResponsibleNeverMissing(config: Json, csn: Json)
    requires Entry(config, csn).Ok?
    ensures RequiredMessage("responsible") !in ValidationErrors(Entry(config, csn).value)
  {
    EntryDefaults(config, csn);
    ValidationMessages(Entry(config, csn).value, "responsible");
  }

  /**
   * `buildDataProduct` returns the entry exactly when it passes the check,
   * and otherwise throws the message naming the id and every failure.
   */
  lemma BuiltIffValid(config: Json, csn: Json)
    ensures Built(config, csn).Err? && Entry(config, csn).Ok? ==> !IsValid(Entry(config, csn).value)
    ensures Built(config, csn).Ok? <==> Entry(config, csn).Ok? && IsValid(Entry(config, csn).value)
    ensures Built(config, csn).Ok? ==> Built(config, csn) == Entry(config, csn)
    ensures Entry(config, csn).Ok? && !IsValid(Entry(config, csn).value) ==>
              Built(config, csn) ==
                Err(Thrown(ValidationMessage(Get(config, "id"), ValidationErrors(Entry(config, csn).value))))
  {
    if Entry(config, csn).Ok? {
      ValidationEmptyIffValid(Entry(config, csn).value);
    }
  }

  // ---------------------------------------------------------------------------
  // Batch

  /**
   * `if (!config.partOfPackage && packageInfo) config.partOfPackage = packageInfo.ordId`
   * for a config that is not null or undefined; the write does nothing on
   * a primitive.
   */
  function WithPackage(config: Json, packageInfo: Json): (r: Json)
    ensures r.Obj? <==> config.Obj?
    ensures config.Obj? && !Truthy(Get(config, "partOfPackage")) && Truthy(packageInfo) ==>
              Get(r, "partOfPackage") == Get(packageInfo, "ordId")
    ensures config.Obj? ==> forall k :: k != "partOfPackage" ==> Get(r, k) == Get(config, k)
    ensures Truthy(Get(config, "partOfPackage")) || !Truthy(packageInfo) || !config.Obj? ==> r == config
  {
    if config.Obj? && !Truthy(Get(config, "partOfPackage")) && Truthy(packageInfo) then
      Obj(Set(config.fields, "partOfPackage", Get(packageInfo, "ordId")))
    else config
  }

  /** The outcome of building one config of the batch. */
  function BuildOne(config: Json, csn: Json, packageInfo: Json): Result<Object>
  {
    Built(WithPackage(config, packageInfo), csn)
  }

  /** The entry a config contributes: none when building it throws. */
  function Survivor(b: Result<Object>): (r: seq<Object>)
    ensures |r| <= 1
    ensures b.Ok? ==> r == [b.value]
    ensures b.Err? ==> r == []
  {
    if b.Ok? then [b.value] else []
  }

  /** The entries one config contributes to the guarded batch. */
  function Contribution(config: Json, csn: Json, packageInfo: Json): (r: seq<Object>)
    ensures |r| <= 1
  {
    if IsNullish(config) then [] else Survivor(BuildOne(config, csn, packageInfo))
  }

  /**
   * One pass of the batch loop: a config that is not null or undefined gets
   * the package when it has none, is built, and contributes its entry unless
   * building it throws.
   */
  method BuildEntry(config: Json, csn: Json, packageInfo: Json) returns (contributed: seq<Object>, updated: Json)
    ensures contributed == Contribution(config, csn, packageInfo)
    ensures updated == WithPackage(config, packageInfo)
  {
    updated := config;
    contributed := [];
    if !IsNullish(config) {
      if config.Obj? && !Truthy(Get(config, "partOfPackage")) && Truthy(packageInfo) {
        updated := Obj(Set(config.fields, "partOfPackage", Get(packageInfo, "ordId")));
      }
      var built := BuildDataProduct(updated, csn);
      contributed := Survivor(built);
    }
  }

  /**
   * The batch loop as written, for a builder `build`: a null or undefined
   * config throws at `config.partOfPackage`, and the catch block throws
   * again at `config.id`, so the whole batch fails.
   */
  function BatchAsWrittenWith(configs: seq<Json>, build: Json -> Result<Object>): Result<seq<Object>>
    decreases |configs|
  {
    if configs == [] then Ok([])
    else if IsNullish(configs[0]) then Err(TypeError)
    else Prepend(Survivor(build(configs[0])), BatchAsWrittenWith(configs[1..], build))
  }

  /** The batch loop with every failure caught: the entries that build, in input order. */
  function BatchWith(configs: seq<Json>, build: Json -> Result<Object>): (out: seq<Object>)
    ensures |out| <= |configs|
    decreases |configs|
  {
    if configs == [] then []
    else
      var rest := BatchWith(configs[1..], build);
      if IsNullish(configs[0]) then rest else Survivor(build(configs[0])) + rest
  }

  /** `buildDataProducts(mergedData, csn, packageInfo)` as written. */
  function BatchAsWritten(configs: seq<Json>, csn: Json, packageInfo: Json): Result<seq<Object>>
  {
    BatchAsWrittenWith(configs, c => BuildOne(c, csn, packageInfo))
  }

  /** The entries each config of the batch contributes, in input order. */
  function Contributions(configs: seq<Json>, csn: Json, packageInfo: Json): (r: seq<seq<Object>>)
    ensures |r| == |configs|
    ensures forall j :: 0 <= j < |configs| ==> r[j] == Contribution(configs[j], csn, packageInfo)
  {
    seq(|configs|, j requires 0 <= j < |configs| => Contribution(configs[j], csn, packageInfo))
  }

  /** The parts joined in order. */
  function Flatten(parts: seq<seq<Object>>): seq<Object>
    decreases |parts|
  {
    if parts == [] then [] else parts[0] + Flatten(parts[1..])
  }

  /** `buildDataProducts(mergedData, csn, packageInfo)` with its failures caught. */
  function Batch(configs: seq<Json>, csn: Json, packageInfo: Json): seq<Object>
  {
    Flatten(Contributions(configs, csn, packageInfo))
  }

  /** The batch is the guarded loop run with the entry builder. */
  lemma {:induction false} BatchIsGuarded(configs: seq<Json>, csn: Json, packageInfo: Json, build: Json -> Result<Object>)
    requires forall c :: build(c) == BuildOne(c, csn, packageInfo)
    ensures Batch(configs, csn, packageInfo) == BatchWith(configs, build)
    decreases |configs|
  {
    if configs != [] {
      var parts := Contributions(configs, csn, packageInfo);
      assert parts[1..] == Contributions(configs[1..], csn, packageInfo);
      BatchIsGuarded(configs[1..], csn, packageInfo, build);
    }
  }

  /** Joining one more part after the others. */
  lemma {:induction false} FlattenSnoc(parts: seq<seq<Object>>, last: seq<Object>)
    ensures Flatten(parts + [last]) == Flatten(parts) + last
    decreases |parts|
  {
    if parts == [] {
      assert [] + [last] == [last];
    } else {
      assert (parts + [last])[1..] == parts[1..] + [last];
      FlattenSnoc(parts[1..], last);
    }
  }

  /** Parts that are the contributions of the configs, one by one, join to the batch. */
  lemma BatchOfParts(configs: seq<Json>, csn: Json, packageInfo: Json, parts: seq<seq<Object>>)
    requires |parts| == |configs|
    requires forall j :: 0 <= j < |configs| ==> parts[j] == Contribution(configs[j], csn, packageInfo)
    ensures Flatten(parts) == Batch(configs, csn, packageInfo)
  {
    assert parts == Contributions(configs, csn, packageInfo);
  }

  /** Every entry of the batch is what some config of it builds to. */
  lemma {:induction false} BatchFrom(configs: seq<Json>, build: Json -> Result<Object>, p: Object)
    requires p in BatchWith(configs, build)
    ensures exists j :: 0 <= j < |configs| && !IsNullish(configs[j]) && build(configs[j]) == Ok(p)
    decreases |configs|
  {
    if !IsNullish(configs[0]) && build(configs[0]) == Ok(p) {
      assert 0 < |configs|;
    } else {
      BatchFrom(configs[1..], build, p);
      var j :| 0 <= j < |configs[1..]| && !IsNullish(configs[1..][j]) && build(configs[1..][j]) == Ok(p);
      assert configs[j + 1] == configs[1..][j];
    }
  }

  /** Every config that builds contributes its entry to the batch. */
  lemma {:induction false} BatchKeeps(configs: seq<Json>, build: Json -> Result<Object>, j: nat)
    requires j < |configs| && !IsNullish(configs[j]) && build(configs[j]).Ok?
    ensures build(configs[j]).value in BatchWith(configs, build)
    decreases j
  {
    if j > 0 {
      assert configs[1..][j - 1] == configs[j];
      BatchKeeps(configs[1..], build, j - 1);
    }
  }

  /** The batch splits along its input: the order of the entries is the order of the configs. */
  lemma {:induction false} BatchAppend(a: seq<Json>, b: seq<Json>, build: Json -> Result<Object>)
    ensures BatchWith(a + b, build) == BatchWith(a, build) + BatchWith(b, build)
    decreases |a|
  {
    if a == [] {
      assert a + b == b;
    } else {
      assert (a + b)[0] == a[0];
      assert (a + b)[1..] == a[1..] + b;
      BatchAppend(a[1..], b, build);
    }
  }

  /** A null or undefined config anywhere aborts the batch as written. */
  lemma {:induction false} NullConfigAborts(configs: seq<Json>, build: Json -> Result<Object>, j: nat)
    requires j < |configs| && IsNullish(configs[j])
    ensures BatchAsWrittenWith(configs, build) == Err(TypeError)
    decreases j
  {
    if j > 0 && !IsNullish(configs[0]) {
      assert configs[1..][j - 1] == configs[j];
      NullConfigAborts(configs[1..], build, j - 1);
    }
  }

  /** Without null or undefined configs, the batch as written is the guarded one. */
  lemma {:induction false} BatchAgrees(configs: seq<Json>, build: Json -> Result<Object>)
    requires forall j :: 0 <= j < |configs| ==> !IsNullish(configs[j])
    ensures BatchAsWrittenWith(configs, build) == Ok(BatchWith(configs, build))
    decreases |configs|
  {
    if configs != [] {
      assert forall j :: 0 <= j < |configs[1..]| ==> configs[1..][j] == configs[j + 1];
      BatchAgrees(configs[1..], build);
    }
  }

  /**
   * The entries `buildDataProducts` keeps are each valid and come from a
   * config of the batch; every config that builds contributes its entry.
   */
  lemma BatchValid(configs: seq<Json>, csn: Json, packageInfo: Json)
    ensures forall p :: p in Batch(configs, csn, packageInfo) ==> IsValid(p)
    ensures forall j :: 0 <= j < |configs| && !IsNullish(configs[j]) && BuildOne(configs[j], csn, packageInfo).Ok? ==>
              BuildOne(configs[j], csn, packageInfo).value in Batch(configs, csn, packageInfo)
  {
    var build := c => BuildOne(c, csn, packageInfo);
    BatchIsGuarded(configs, csn, packageInfo, build);
    forall p | p in Batch(configs, csn, packageInfo) ensures IsValid(p) {
      BatchFrom(configs, build, p);
      var j :| 0 <= j < |configs| && !IsNullish(configs[j]) && build(configs[j]) == Ok(p);
      BuiltIffValid(WithPackage(configs[j], packageInfo), csn);
    }
    forall j | 0 <= j < |configs| && !IsNullish(configs[j]) && BuildOne(configs[j], csn, packageInfo).Ok?
      ensures BuildOne(configs[j], csn, packageInfo).value in Batch(configs, csn, packageInfo)
    {
      BatchKeeps(configs, build, j);
    }
  }

  /**
   * `buildDataProducts`: each config gets the package id when it has none,
   * is built, and its entry is kept when building does not throw. The
   * updated configs are returned beside the entries.
   */
  method BuildDataProducts(mergedData: seq<Json>, csn: Json, packageInfo: Json)
    returns (products: seq<Object>, configs: seq<Json>)
    ensures products == Batch(mergedData, csn, packageInfo)
    ensures |configs| == |mergedData|
    ensures forall i :: 0 <= i < |mergedData| ==> configs[i] == WithPackage(mergedData[i], packageInfo)
  {
    ghost var parts: seq<seq<Object>> := [];
    products := [];
    configs := mergedData;
    var i := 0;
    while i < |mergedData|
      invariant 0 <= i <= |mergedData|
      invariant |configs| == |mergedData| && |parts| == i
      invariant products == Flatten(parts)
      invariant forall j {:trigger Contribution(mergedData[j], csn, packageInfo)} :: 0 <= j < i ==>
                  parts[j] == Contribution(mergedData[j], csn, packageInfo)
      invariant forall j :: 0 <= j < i ==> configs[j] == WithPackage(mergedData[j], packageInfo)
      invariant forall j :: i <= j < |mergedData| ==> configs[j] == mergedData[j]
    {
      var contributed, config := BuildEntry(configs[i], csn, packageInfo);
      FlattenSnoc(parts, contributed);
      parts := parts + [contributed];
      configs := configs[i := config];
      products := products + contributed;
      i := i + 1;
    }
    BatchOfParts(mergedData, csn, packageInfo, parts);
  }
}
