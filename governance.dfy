/**
 * The governance stage (lib/dataProducts/processors/GovernanceProcessor.js):
 * policy level, system-instance awareness and custom policy level from the
 * `@ORD.governance` block and the individual annotations, then compliance,
 * classification, retention and personal-data labels.
 *
 * The record is copied shallowly before it is enriched, so its `labels`
 * and `documentationLabels` objects are shared with the input record: a
 * label written into an existing object is written into the input record's
 * object too. `Fallback` is the input record as the stage returns it when
 * a later label write throws, with the writes that went through before.
 */
module Governance {
  import opened Js
  import opened Csn
  import opened StageMap

  const ANN_GOVERNANCE := "@ORD.governance"
  const ANN_POLICY_LEVEL := "@ORD.policyLevel"
  const ANN_SYSTEM_INSTANCE_AWARE := "@ORD.systemInstanceAware"
  const ANN_COMPLIANCE := "@ORD.compliance"
  const ANN_DATA_CLASSIFICATION := "@ORD.dataClassification"
  const ANN_DATA_RETENTION := "@ORD.dataRetention"
  const ANN_PERSONAL_DATA := "@ORD.personalData"

  const LABELS := "labels"
  const DOCUMENTATION_LABELS := "documentationLabels"

  // ---------------------------------------------------------------------------
  // Policy level and system-instance awareness
  // ---------------------------------------------------------------------------

  /** `if (c) enriched[k] = v` */
  function SetWhen(r: Object, c: bool, k: string, v: Json): (out: Object)
    ensures Lookup(out, k) == if c then v else Lookup(r, k)
    ensures forall k' :: k' != k ==> Lookup(out, k') == Lookup(r, k')
  {
    if c then Set(r, k, v) else r
  }

  /** The fields the `@ORD.governance` block gives, when it is truthy. */
  function Block(r: Object, service: Json): (out: Object)
    ensures forall k :: k != "policyLevel" && k != "systemInstanceAware" && k != "customPolicyLevel" ==> Lookup(out, k) == Lookup(r, k)
  {
    var gov := Get(service, ANN_GOVERNANCE);
    if !Truthy(gov) then r
    else
      var r := SetWhen(r, Truthy(Get(gov, "policyLevel")), "policyLevel", Get(gov, "policyLevel"));
      var r := SetWhen(r, Get(gov, "systemInstanceAware").Bool?, "systemInstanceAware", Get(gov, "systemInstanceAware"));
      SetWhen(r, Truthy(Get(gov, "customPolicyLevel")), "customPolicyLevel", Get(gov, "customPolicyLevel"))
  }

  /** The individual annotations, each only where the field is still unset. */
  function Individual(r: Object, service: Json): (out: Object)
    ensures forall k :: k != "policyLevel" && k != "systemInstanceAware" ==> Lookup(out, k) == Lookup(r, k)
  {
    var level := Get(service, ANN_POLICY_LEVEL);
    var r := SetWhen(r, Truthy(level) && !Truthy(Lookup(r, "policyLevel")), "policyLevel", level);
    var aware := Get(service, ANN_SYSTEM_INSTANCE_AWARE);
    SetWhen(r, aware.Bool? && Lookup(r, "systemInstanceAware").Undef?, "systemInstanceAware", aware)
  }

  /**
   * Policy level: the block's when truthy, else the record's own when
   * truthy, else the individual annotation's when truthy. System-instance
   * awareness: the block's when boolean, else the record's own when
   * defined, else the annotation's when boolean. The custom policy level
   * comes only from the block.
   */
  lemma PolicyFields(r: Object, service: Json)
    ensures var gov := Get(service, ANN_GOVERNANCE);
            var out := Individual(Block(r, service), service);
            var fromBlock := if Truthy(gov) && Truthy(Get(gov, "policyLevel")) then Get(gov, "policyLevel") else Lookup(r, "policyLevel");
            Lookup(out, "policyLevel") ==
              if Truthy(fromBlock) then fromBlock
              else if Truthy(Get(service, ANN_POLICY_LEVEL)) then Get(service, ANN_POLICY_LEVEL)
              else fromBlock
    ensures var gov := Get(service, ANN_GOVERNANCE);
            var out := Individual(Block(r, service), service);
            var fromBlock := if Truthy(gov) && Get(gov, "systemInstanceAware").Bool? then Get(gov, "systemInstanceAware") else Lookup(r, "systemInstanceAware");
            Lookup(out, "systemInstanceAware") ==
              if fromBlock.Undef? && Get(service, ANN_SYSTEM_INSTANCE_AWARE).Bool? then Get(service, ANN_SYSTEM_INSTANCE_AWARE)
              else fromBlock
    ensures var gov := Get(service, ANN_GOVERNANCE);
            var out := Individual(Block(r, service), service);
            Lookup(out, "customPolicyLevel") ==
              if Truthy(gov) && Truthy(Get(gov, "customPolicyLevel")) then Get(gov, "customPolicyLevel") else Lookup(r, "customPolicyLevel")
  {
    var b := Block(r, service);
    var gov := Get(service, ANN_GOVERNANCE);
    if Truthy(gov) {
      var r1 := SetWhen(r, Truthy(Get(gov, "policyLevel")), "policyLevel", Get(gov, "policyLevel"));
      var r2 := SetWhen(r1, Get(gov, "systemInstanceAware").Bool?, "systemInstanceAware", Get(gov, "systemInstanceAware"));
      assert b == SetWhen(r2, Truthy(Get(gov, "customPolicyLevel")), "customPolicyLevel", Get(gov, "customPolicyLevel"));
      assert Lookup(b, "policyLevel") == Lookup(r1, "policyLevel");
      assert Lookup(b, "systemInstanceAware") == Lookup(r2, "systemInstanceAware");
    }
    var level := Get(service, ANN_POLICY_LEVEL);
    var i1 := SetWhen(b, Truthy(level) && !Truthy(Lookup(b, "policyLevel")), "policyLevel", level);
    assert Lookup(i1, "systemInstanceAware") == Lookup(b, "systemInstanceAware");
  }

  // ---------------------------------------------------------------------------
  // Labels
  // ---------------------------------------------------------------------------

  /** `enriched[container][key] = value` */
  datatype LabelWrite = LabelWrite(container: string, key: string, value: Json)

  /** The label writes the service's annotations ask for, in the order they are made. */
  function Writes(service: Json): (ws: seq<LabelWrite>)
    ensures |ws| <= 4
    ensures forall i :: 0 <= i < |ws| ==> ws[i].container == LABELS || ws[i].container == DOCUMENTATION_LABELS
  {
    WritesOf(Get(service, ANN_COMPLIANCE), Get(service, ANN_DATA_CLASSIFICATION), Get(service, ANN_DATA_RETENTION), Get(service, ANN_PERSONAL_DATA))
  }

  /** The label writes for the four annotation values, in the order they are made. */
  function WritesOf(compliance: Json, classification: Json, retention: Json, personal: Json): (ws: seq<LabelWrite>)
    ensures |ws| <= 4
    ensures forall i :: 0 <= i < |ws| ==> ws[i].container == LABELS || ws[i].container == DOCUMENTATION_LABELS
  {
    WriteWhen(Truthy(compliance), LABELS, "compliance", if compliance.Arr? then compliance else Arr([compliance])) +
    WriteWhen(Truthy(classification), LABELS, "data-classification", Arr([classification])) +
    WriteWhen(Truthy(retention), DOCUMENTATION_LABELS, "Data Retention", Arr([retention])) +
    WriteWhen(Truthy(personal), LABELS, "personal-data", Arr([Str(JsString(personal))]))
  }

  /** `if (c) enriched[container][key] = value` as a list of at most one write. */
  function WriteWhen(c: bool, container: string, key: string, value: Json): (ws: seq<LabelWrite>)
    ensures |ws| <= 1
  {
    if c then [LabelWrite(container, key, value)] else []
  }

  /**
   * A container the record does not have is replaced by a fresh object.
   * Writing a named key into a string, a number or `true` throws in strict
   * mode; into an array it adds a property no output carries.
   */
  predicate Writable(container: Json)
  {
    !Truthy(container) || container.Obj? || container.Arr?
  }

  /** One label write into the enriched record. */
  function Write(r: Object, w: LabelWrite): (out: Result<Object>)
    ensures out.Err? <==> !Writable(Lookup(r, w.container))
    ensures out.Ok? ==> forall k :: k != w.container ==> Lookup(out.value, k) == Lookup(r, k)
  {
    var c := Lookup(r, w.container);
    if !Truthy(c) then Ok(Set(r, w.container, Obj([Field(w.key, w.value)])))
    else if c.Obj? then Ok(Set(r, w.container, Obj(Set(c.fields, w.key, w.value))))
    else if c.Arr? then Ok(r)
    else Err(TypeError)
  }

  /** The label writes in order, stopping at the first that throws. */
  function ApplyWrites(r: Object, ws: seq<LabelWrite>): Result<Object>
    decreases |ws|
  {
    if ws == [] then Ok(r)
    else
      var r :- Write(r, ws[0]);
      ApplyWrites(r, ws[1..])
  }

  /** `enrichWithGovernanceFields` */
  function Enrich(dp: Object, ctx: Context): Result<Object>
  {
    var service :- ServiceOf(ctx, dp);
    if !Truthy(service) then Ok(dp)
    else ApplyWrites(Individual(Block(dp, service), service), Writes(service))
  }

  /**
   * The input record after the writes that reached its own label objects
   * before the first write that throws: only a container that is already
   * an object is shared.
   */
  function SharedWrites(dp: Object, ws: seq<LabelWrite>): Object
    decreases |ws|
  {
    if ws == [] then dp
    else
      var c := Lookup(dp, ws[0].container);
      if !Writable(c) then dp
      else if c.Obj? then SharedWrites(Set(dp, ws[0].container, Obj(Set(c.fields, ws[0].key, ws[0].value))), ws[1..])
      else SharedWrites(dp, ws[1..])
  }

  /** The record the `catch` returns: the input record, with its shared label objects as the writes left them. */
  function Fallback(dp: Object, ctx: Context): Object
  {
    var service := ServiceOf(ctx, dp);
    if service.Err? || !Truthy(service.value) then dp
    else SharedWrites(dp, Writes(service.value))
  }

  /** `process` */
  function Process(records: seq<Object>, ctx: Context): seq<Object>
  {
    MapGuarded(records, dp => Enrich(dp, ctx), dp => Fallback(dp, ctx))
  }

  // ---------------------------------------------------------------------------
  // Properties
  // ---------------------------------------------------------------------------

  /** Only label containers change under label writes. */
  lemma {:induction false} ApplyWritesKeeps(r: Object, ws: seq<LabelWrite>, k: string)
    requires k != LABELS && k != DOCUMENTATION_LABELS
    requires forall i :: 0 <= i < |ws| ==> ws[i].container == LABELS || ws[i].container == DOCUMENTATION_LABELS
    ensures ApplyWrites(r, ws).Ok? ==> Lookup(ApplyWrites(r, ws).value, k) == Lookup(r, k)
    decreases |ws|
  {
    if ws != [] && Write(r, ws[0]).Ok? {
      ApplyWritesKeeps(Write(r, ws[0]).value, ws[1..], k);
    }
  }

  /**
   * The writes throw exactly when one of them goes to a container the
   * record has as a string, a number or `true`; the containers' types do
   * not change before that.
   */
  lemma {:induction false} ApplyWritesThrows(r: Object, ws: seq<LabelWrite>)
    ensures ApplyWrites(r, ws).Err? <==> exists i :: 0 <= i < |ws| && !Writable(Lookup(r, ws[i].container))
    decreases |ws|
  {
    if ws != [] {
      var w := ws[0];
      if Write(r, w).Ok? {
        var r' := Write(r, w).value;
        forall k ensures Writable(Lookup(r', k)) == Writable(Lookup(r, k)) {
        }
        ApplyWritesThrows(r', ws[1..]);
        if exists i :: 0 <= i < |ws| && !Writable(Lookup(r, ws[i].container)) {
          var i :| 0 <= i < |ws| && !Writable(Lookup(r, ws[i].container));
          assert i > 0;
          assert ws[1..][i - 1] == ws[i];
        }
        if exists i :: 0 <= i < |ws[1..]| && !Writable(Lookup(r', ws[1..][i].container)) {
          var i :| 0 <= i < |ws[1..]| && !Writable(Lookup(r', ws[1..][i].container));
          assert ws[i + 1] == ws[1..][i];
        }
      }
    }
  }

  /**
   * After the writes, a label key the writes do not name keeps the value
   * the container had, when the container was an object or absent; a
   * written key holds the value of its last write.
   */
  lemma {:induction false} ApplyWritesLabel(r: Object, ws: seq<LabelWrite>, container: string, key: string)
    requires ApplyWrites(r, ws).Ok?
    requires Lookup(r, container).Obj? || !Truthy(Lookup(r, container))
    ensures var c := Lookup(ApplyWrites(r, ws).value, container);
            (Lookup(r, container).Obj? || exists i :: 0 <= i < |ws| && ws[i].container == container) ==> c.Obj?
    ensures var c := Lookup(ApplyWrites(r, ws).value, container);
            var before := if Lookup(r, container).Obj? then Lookup(Lookup(r, container).fields, key) else Undef;
            c.Obj? ==> Lookup(c.fields, key) == LastLabel(ws, container, key, before)
    decreases |ws|
  {
    if ws != [] {
      var w := ws[0];
      var r' := Write(r, w).value;
      var before := if Lookup(r, container).Obj? then Lookup(Lookup(r, container).fields, key) else Undef;
      if w.container == container {
        var c' := Lookup(r', container);
        assert c'.Obj?;
        assert Lookup(c'.fields, key) == if w.key == key then w.value else before;
      }
      ApplyWritesLabel(r', ws[1..], container, key);
      if exists i :: 0 <= i < |ws| && ws[i].container == container {
        var i :| 0 <= i < |ws| && ws[i].container == container;
        if i > 0 {
          assert ws[1..][i - 1] == ws[i];
        }
      }
    }
  }

  /** The value the last write of `key` into `container` leaves, `before` when there is none. */
  function LastLabel(ws: seq<LabelWrite>, container: string, key: string, before: Json): Json
  {
    if ws == [] then before
    else LastLabel(ws[1..], container, key, if ws[0].container == container && ws[0].key == key then ws[0].value else before)
  }

  lemma {:induction false} LastLabelAppend(a: seq<LabelWrite>, b: seq<LabelWrite>, container: string, key: string, before: Json)
    ensures LastLabel(a + b, container, key, before) == LastLabel(b, container, key, LastLabel(a, container, key, before))
    decreases |a|
  {
    if a != [] {
      assert (a + b)[1..] == a[1..] + b;
      LastLabelAppend(a[1..], b, container, key, if a[0].container == container && a[0].key == key then a[0].value else before);
    } else {
      assert a + b == b;
    }
  }

  lemma LastLabelSingle(w: seq<LabelWrite>, container: string, key: string, before: Json)
    requires |w| <= 1
    ensures LastLabel(w, container, key, before) == if w != [] && w[0].container == container && w[0].key == key then w[0].value else before
  {
    if w != [] {
      assert w[1..] == [];
    }
  }

  /**
   * What the service's label writes leave under each key: compliance
   * (wrapped in a list unless it is one), data classification and personal
   * data (as its string) in `labels`, retention in `documentationLabels`;
   * every other key keeps `before`.
   */
  lemma WritesLabels(service: Json, container: string, key: string, before: Json)
    ensures var compliance := Get(service, ANN_COMPLIANCE);
            var classification := Get(service, ANN_DATA_CLASSIFICATION);
            var retention := Get(service, ANN_DATA_RETENTION);
            var personal := Get(service, ANN_PERSONAL_DATA);
            LastLabel(Writes(service), container, key, before) ==
              if container == LABELS && key == "compliance" && Truthy(compliance) then (if compliance.Arr? then compliance else Arr([compliance]))
              else if container == LABELS && key == "data-classification" && Truthy(classification) then Arr([classification])
              else if container == LABELS && key == "personal-data" && Truthy(personal) then Arr([Str(JsString(personal))])
              else if container == DOCUMENTATION_LABELS && key == "Data Retention" && Truthy(retention) then Arr([retention])
              else before
  {
    WritesOfLabels(Get(service, ANN_COMPLIANCE), Get(service, ANN_DATA_CLASSIFICATION), Get(service, ANN_DATA_RETENTION), Get(service, ANN_PERSONAL_DATA), container, key, before);
  }

  lemma LabelNamesDistinct()
    ensures "compliance" != "data-classification" && "compliance" != "personal-data" && "data-classification" != "personal-data"
    ensures LABELS != DOCUMENTATION_LABELS
  {
    assert |"compliance"| == 10 && |"data-classification"| == 19 && |"personal-data"| == 13;
    assert |LABELS| != |DOCUMENTATION_LABELS|;
  }

  lemma WritesOfLabels(compliance: Json, classification: Json, retention: Json, personal: Json, container: string, key: string, before: Json)
    ensures LastLabel(WritesOf(compliance, classification, retention, personal), container, key, before) ==
              if container == LABELS && key == "compliance" && Truthy(compliance) then (if compliance.Arr? then compliance else Arr([compliance]))
              else if container == LABELS && key == "data-classification" && Truthy(classification) then Arr([classification])
              else if container == LABELS && key == "personal-data" && Truthy(personal) then Arr([Str(JsString(personal))])
              else if container == DOCUMENTATION_LABELS && key == "Data Retention" && Truthy(retention) then Arr([retention])
              else before
  {
    LabelsOfWrites(Truthy(compliance), if compliance.Arr? then compliance else Arr([compliance]),
                   Truthy(classification), Arr([classification]),
                   Truthy(retention), Arr([retention]),
                   Truthy(personal), Arr([Str(JsString(personal))]), container, key, before);
  }

  /** What the four optional label writes leave under each key. */
  lemma LabelsOfWrites(c1: bool, v1: Json, c2: bool, v2: Json, c3: bool, v3: Json, c4: bool, v4: Json,
                       container: string, key: string, before: Json)
    ensures LastLabel(WriteWhen(c1, LABELS, "compliance", v1) + WriteWhen(c2, LABELS, "data-classification", v2) +
                      WriteWhen(c3, DOCUMENTATION_LABELS, "Data Retention", v3) + WriteWhen(c4, LABELS, "personal-data", v4),
                      container, key, before) ==
              if container == LABELS && key == "compliance" && c1 then v1
              else if container == LABELS && key == "data-classification" && c2 then v2
              else if container == LABELS && key == "personal-data" && c4 then v4
              else if container == DOCUMENTATION_LABELS && key == "Data Retention" && c3 then v3
              else before
  {
    LabelNamesDistinct();
    var a := WriteWhen(c1, LABELS, "compliance", v1);
    var b := WriteWhen(c2, LABELS, "data-classification", v2);
    var c := WriteWhen(c3, DOCUMENTATION_LABELS, "Data Retention", v3);
    var d := WriteWhen(c4, LABELS, "personal-data", v4);
    LastOfFour(a, b, c, d, container, key, before);
  }

  /** The value one optional write leaves under `key` in `container`. */
  function After(w: seq<LabelWrite>, container: string, key: string, before: Json): Json
  {
    if w != [] && w[0].container == container && w[0].key == key then w[0].value else before
  }

  /** Four optional writes one after the other. */
  lemma LastOfFour(a: seq<LabelWrite>, b: seq<LabelWrite>, c: seq<LabelWrite>, d: seq<LabelWrite>, container: string, key: string, before: Json)
    requires |a| <= 1 && |b| <= 1 && |c| <= 1 && |d| <= 1
    ensures LastLabel(a + b + c + d, container, key, before) ==
              After(d, container, key, After(c, container, key, After(b, container, key, After(a, container, key, before))))
  {
    LastLabelAppend(a + b + c, d, container, key, before);
    LastLabelAppend(a + b, c, container, key, before);
    LastLabelAppend(a, b, container, key, before);
    LastLabelSingle(a, container, key, before);
    var va := LastLabel(a, container, key, before);
    LastLabelSingle(b, container, key, va);
    var vb := LastLabel(b, container, key, va);
    LastLabelSingle(c, container, key, vb);
    var vc := LastLabel(c, container, key, vb);
    LastLabelSingle(d, container, key, vc);
  }

  /** The policy fields and the label containers do not interfere. */
  lemma PolicyKeepsLabels(dp: Object, service: Json)
    ensures Lookup(Individual(Block(dp, service), service), LABELS) == Lookup(dp, LABELS)
    ensures Lookup(Individual(Block(dp, service), service), DOCUMENTATION_LABELS) == Lookup(dp, DOCUMENTATION_LABELS)
  {
  }

  /**
   * The enrichment throws exactly when the service is looked up in a model
   * without definitions, or when a label write goes to a container the
   * record has as a string, a number or `true`.
   */
  lemma EnrichThrows(dp: Object, ctx: Context)
    ensures Enrich(dp, ctx).Err? <==>
              ServiceOf(ctx, dp).Err? ||
              (Truthy(ServiceOf(ctx, dp).value) &&
               exists i :: 0 <= i < |Writes(ServiceOf(ctx, dp).value)| && !Writable(Lookup(dp, Writes(ServiceOf(ctx, dp).value)[i].container)))
  {
    if ServiceOf(ctx, dp).Ok? && Truthy(ServiceOf(ctx, dp).value) {
      var service := ServiceOf(ctx, dp).value;
      var r := Individual(Block(dp, service), service);
      PolicyKeepsLabels(dp, service);
      ApplyWritesThrows(r, Writes(service));
    }
  }

  /**
   * After a successful enrichment, a label container that was an object
   * keeps every key the annotations do not write, and one that was absent
   * holds only what they write.
   */
  lemma EnrichLabels(dp: Object, ctx: Context, container: string, key: string)
    requires Enrich(dp, ctx).Ok? && Truthy(ServiceOf(ctx, dp).value)
    requires container == LABELS || container == DOCUMENTATION_LABELS
    requires Lookup(dp, container).Obj? || !Truthy(Lookup(dp, container))
    ensures var c := Lookup(Enrich(dp, ctx).value, container);
            var before := if Lookup(dp, container).Obj? then Lookup(Lookup(dp, container).fields, key) else Undef;
            c.Obj? ==> Lookup(c.fields, key) == LastLabel(Writes(ServiceOf(ctx, dp).value), container, key, before)
    ensures Lookup(dp, container).Obj? ==> Lookup(Enrich(dp, ctx).value, container).Obj?
  {
    var service := ServiceOf(ctx, dp).value;
    PolicyKeepsLabels(dp, service);
    ApplyWritesLabel(Individual(Block(dp, service), service), Writes(service), container, key);
  }

  /** The enrichment writes no field but the policy fields and the label containers. */
  lemma EnrichWrites(dp: Object, ctx: Context, k: string)
    requires Enrich(dp, ctx).Ok?
    requires k != "policyLevel" && k != "systemInstanceAware" && k != "customPolicyLevel" && k != LABELS && k != DOCUMENTATION_LABELS
    ensures Lookup(Enrich(dp, ctx).value, k) == Lookup(dp, k)
  {
    var service := ServiceOf(ctx, dp).value;
    if Truthy(service) {
      ApplyWritesKeeps(Individual(Block(dp, service), service), Writes(service), k);
    }
  }

  /** The writes into the shared containers change nothing else of the input record. */
  lemma {:induction false} SharedWritesKeeps(dp: Object, ws: seq<LabelWrite>, k: string)
    requires forall i :: 0 <= i < |ws| ==> ws[i].container != k
    ensures Lookup(SharedWrites(dp, ws), k) == Lookup(dp, k)
    decreases |ws|
  {
    if ws != [] {
      var c := Lookup(dp, ws[0].container);
      if Writable(c) {
        var dp' := if c.Obj? then Set(dp, ws[0].container, Obj(Set(c.fields, ws[0].key, ws[0].value))) else dp;
        SharedWritesKeeps(dp', ws[1..], k);
      }
    }
  }

  /** The stage keeps the number and order of the records and every field it does not write. */
  lemma ProcessKeepsFields(records: seq<Object>, ctx: Context, k: string)
    requires k != "policyLevel" && k != "systemInstanceAware" && k != "customPolicyLevel" && k != LABELS && k != DOCUMENTATION_LABELS
    ensures |Process(records, ctx)| == |records|
    ensures forall i :: 0 <= i < |records| ==> Lookup(Process(records, ctx)[i], k) == Lookup(records[i], k)
  {
    forall i | 0 <= i < |records|
      ensures Lookup(Process(records, ctx)[i], k) == Lookup(records[i], k)
    {
      var dp := records[i];
      if Enrich(dp, ctx).Ok? {
        EnrichWrites(dp, ctx, k);
      } else {
        var service := ServiceOf(ctx, dp);
        if service.Ok? && Truthy(service.value) {
          var ws := Writes(service.value);
          forall j | 0 <= j < |ws| ensures ws[j].container != k {
          }
          SharedWritesKeeps(dp, ws, k);
        }
      }
    }
  }

  /**
   * The shallow copy at work: when the record's `labels` is an object and
   * its `documentationLabels` a string, a compliance annotation followed by
   * a retention annotation makes the enrichment throw, and the record the
   * stage falls back to carries the compliance label all the same.
   */
  lemma FallbackKeepsSharedWrites(records: seq<Object>, ctx: Context, i: nat)
    requires i < |records| && ServiceOf(ctx, records[i]).Ok? && Truthy(ServiceOf(ctx, records[i]).value)
    requires var service := ServiceOf(ctx, records[i]).value;
             Truthy(Get(service, ANN_COMPLIANCE)) && Truthy(Get(service, ANN_DATA_RETENTION))
    requires Lookup(records[i], LABELS).Obj? && Lookup(records[i], DOCUMENTATION_LABELS).Str? && Truthy(Lookup(records[i], DOCUMENTATION_LABELS))
    ensures Enrich(records[i], ctx).Err?
    ensures var compliance := Get(ServiceOf(ctx, records[i]).value, ANN_COMPLIANCE);
            var labels := Lookup(Process(records, ctx)[i], LABELS);
            labels.Obj? && Lookup(labels.fields, "compliance") == if compliance.Arr? then compliance else Arr([compliance])
  {
    var dp := records[i];
    var service := ServiceOf(ctx, dp).value;
    var ws := Writes(service);
    WritesShape(service);
    EnrichThrows(dp, ctx);
    assert !Writable(Lookup(dp, ws[|ws| - 1 - (if Truthy(Get(service, ANN_PERSONAL_DATA)) then 1 else 0)].container));
    assert Process(records, ctx)[i] == SharedWrites(dp, ws);
    SharedWritesFirst(dp, ws);
  }

  /** With compliance and retention annotated, the compliance write comes first and the retention write is the last but the personal-data one. */
  lemma WritesShape(service: Json)
    requires Truthy(Get(service, ANN_COMPLIANCE)) && Truthy(Get(service, ANN_DATA_RETENTION))
    ensures var ws := Writes(service);
            var compliance := Get(service, ANN_COMPLIANCE);
            var p := if Truthy(Get(service, ANN_PERSONAL_DATA)) then 1 else 0;
            |ws| >= 2 + p && ws[0] == LabelWrite(LABELS, "compliance", if compliance.Arr? then compliance else Arr([compliance])) &&
            ws[|ws| - 1 - p].container == DOCUMENTATION_LABELS &&
            forall j :: 1 <= j < |ws| ==> ws[j].key != "compliance"
  {
  }

  /** The first shared write survives the later ones when they write other keys. */
  lemma SharedWritesFirst(dp: Object, ws: seq<LabelWrite>)
    requires |ws| > 0 && ws[0].container == LABELS && Lookup(dp, LABELS).Obj?
    requires forall j :: 1 <= j < |ws| ==> ws[j].key != ws[0].key
    ensures var labels := Lookup(SharedWrites(dp, ws), LABELS);
            labels.Obj? && Lookup(labels.fields, ws[0].key) == ws[0].value
  {
    var labels := Lookup(dp, LABELS);
    var dp1 := Set(dp, LABELS, Obj(Set(labels.fields, ws[0].key, ws[0].value)));
    assert SharedWrites(dp, ws) == SharedWrites(dp1, ws[1..]);
    SharedWritesLabel(dp1, ws[1..], ws[0].key);
  }

  /** Shared writes of other keys keep a label. */
  lemma {:induction false} SharedWritesLabel(dp: Object, ws: seq<LabelWrite>, key: string)
    requires Lookup(dp, LABELS).Obj?
    requires forall i :: 0 <= i < |ws| ==> ws[i].key != key
    ensures var labels := Lookup(SharedWrites(dp, ws), LABELS);
            labels.Obj? && Lookup(labels.fields, key) == Lookup(Lookup(dp, LABELS).fields, key)
    decreases |ws|
  {
    if ws != [] {
      var c := Lookup(dp, ws[0].container);
      if Writable(c) {
        var dp' := if c.Obj? then Set(dp, ws[0].container, Obj(Set(c.fields, ws[0].key, ws[0].value))) else dp;
        SharedWritesLabel(dp', ws[1..], key);
      }
    }
  }
}
