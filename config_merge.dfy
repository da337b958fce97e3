/**
 * Merging the override document into the generated records
 * (`mergeConfiguration`, lib/dataProducts/utils.js). Each override names a
 * record by `id`; the first record with that id is overlaid with every
 * property of the override and gets a `source`. Overrides whose id matches
 * no record add nothing. Properties that the override changes are reported
 * as conflicts, which never influence the records.
 */
module ConfigMerge {
  import opened Js

  /** One property the override changes: its name, the old value and the new one. */
  datatype ConflictField = ConflictField(field: string, previousValue: Json, customValue: Json)

  /** The changed properties of one record. */
  datatype Conflict = Conflict(dataProductId: Json, fields: seq<ConflictField>)

  /** `{ dataProducts, conflicts, mergedCount }` */
  datatype MergeResult = MergeResult(dataProducts: seq<Object>, conflicts: seq<Conflict>, mergedCount: nat)

  /** The ids of the records, in order. */
  function Ids(records: seq<Object>): (ids: seq<Json>)
    ensures |ids| == |records|
    ensures forall i :: 0 <= i < |records| ==> ids[i] == Lookup(records[i], "id")
  {
    seq(|records|, i requires 0 <= i < |records| => Lookup(records[i], "id"))
  }

  /**
   * `records.findIndex(dp => dp.id === id)` where `id` comes from the parsed
   * override document: the first record whose id is that id, or -1.
   */
  function FindById(records: seq<Object>, id: Json): (i: int)
    ensures -1 <= i < |records|
    ensures i >= 0 ==> StrictEqualsFresh(Lookup(records[i], "id"), id)
    ensures i >= 0 ==> forall j :: 0 <= j < i ==> !StrictEqualsFresh(Lookup(records[j], "id"), id)
    ensures i < 0 ==> forall j :: 0 <= j < |records| ==> !StrictEqualsFresh(Lookup(records[j], "id"), id)
  {
    if records == [] then -1
    else if StrictEqualsFresh(Lookup(records[0], "id"), id) then 0
    else
      var i := FindById(records[1..], id);
      if i < 0 then -1 else i + 1
  }

  /** The search only looks at ids. */
  lemma FindBySameIds(a: seq<Object>, b: seq<Object>, id: Json)
    requires Ids(a) == Ids(b)
    ensures FindById(a, id) == FindById(b, id)
  {
    var i, j := FindById(a, id), FindById(b, id);
    assert forall k :: 0 <= k < |a| ==> Lookup(a[k], "id") == Ids(a)[k] == Ids(b)[k] == Lookup(b[k], "id");
    if i >= 0 && j >= 0 {
      assert !(i < j) && !(j < i);
    }
  }

  /** An override property is a conflict when it is not `id`, was defined before and differs. */
  predicate IsConflict(existing: Object, f: Field)
  {
    f.key != "id" && Lookup(existing, f.key) != Undef && !StrictEqualsFresh(Lookup(existing, f.key), f.value)
  }

  function Describe(existing: Object, f: Field): ConflictField
  {
    ConflictField(f.key, Lookup(existing, f.key), f.value)
  }

  /** The conflicts among the override's properties, in their order. */
  function ConflictFields(existing: Object, entries: seq<Field>): seq<ConflictField>
    decreases |entries|
  {
    if entries == [] then []
    else
      var f := entries[|entries| - 1];
      ConflictFields(existing, entries[..|entries| - 1]) + (if IsConflict(existing, f) then [Describe(existing, f)] else [])
  }

  /** The reported conflicts are exactly the descriptions of the conflicting properties. */
  lemma {:induction false} ConflictFieldsSpec(existing: Object, entries: seq<Field>)
    ensures |ConflictFields(existing, entries)| <= |entries|
    ensures forall c :: c in ConflictFields(existing, entries) <==>
              exists j :: 0 <= j < |entries| && IsConflict(existing, entries[j]) && c == Describe(existing, entries[j])
    decreases |entries|
  {
    if entries != [] {
      var p := entries[..|entries| - 1];
      ConflictFieldsSpec(existing, p);
      assert forall j :: 0 <= j < |p| ==> p[j] == entries[j];
    }
  }

  /** `{...existing, ...custom, source: custom.source || "custom"}` */
  function Overlay(existing: Object, custom: Json): (r: Object)
  {
    Set(Assign(existing, OwnEntries(custom)), "source", Or(Get(custom, "source"), Str("custom")))
  }

  /**
   * After the overlay every property holds the value the override wrote last,
   * or its old value when the override does not name it; `source` holds the
   * override's source, or "custom". No property is lost.
   */
  lemma OverlayProperties(existing: Object, custom: Json, k: string)
    ensures k == "source" ==> Lookup(Overlay(existing, custom), k) == Or(Get(custom, "source"), Str("custom"))
    ensures k != "source" ==> Lookup(Overlay(existing, custom), k) == LastValue(OwnEntries(custom), k, Lookup(existing, k))
    ensures HasKey(Overlay(existing, custom), k) <==> HasKey(existing, k) || HasKey(OwnEntries(custom), k) || k == "source"
  {
    LookupAssign(existing, OwnEntries(custom), k);
    HasKeyAssign(existing, OwnEntries(custom), k);
    SetHasKey(Assign(existing, OwnEntries(custom)), "source", Or(Get(custom, "source"), Str("custom")), k);
  }

  /**
   * For an override object from a parsed document, a property the override
   * has takes the override's value, and any other property other than
   * `source` keeps its old value.
   */
  lemma OverlayObject(existing: Object, custom: Json, k: string)
    requires custom.Obj? && UniqueKeys(custom.fields) && k != "source"
    ensures HasKey(custom.fields, k) ==> Lookup(Overlay(existing, custom), k) == Lookup(custom.fields, k)
    ensures !HasKey(custom.fields, k) ==> Lookup(Overlay(existing, custom), k) == Lookup(existing, k)
  {
    OverlayProperties(existing, custom, k);
    LastValueUnique(custom.fields, k, Lookup(existing, k));
  }

  /** What `parsed` guarantees of an override: an object in it has unique property names. */
  predicate Parsed(custom: Json)
  {
    custom.Obj? ==> UniqueKeys(custom.fields)
  }

  /** An overlay by an override whose id matched keeps the record's id. */
  lemma OverlayKeepsId(existing: Object, custom: Json)
    requires Parsed(custom) && StrictEqualsFresh(Lookup(existing, "id"), Get(custom, "id"))
    ensures Lookup(Overlay(existing, custom), "id") == Lookup(existing, "id")
  {
    OverlayProperties(existing, custom, "id");
    if custom.Obj? {
      LastValueUnique(custom.fields, "id", Lookup(existing, "id"));
    } else {
      IndexKeysAreDigits(custom, "id");
      assert LastValue(OwnEntries(custom), "id", Lookup(existing, "id")) == Lookup(existing, "id") by {
        LastValueAbsent(OwnEntries(custom), "id", Lookup(existing, "id"));
      }
    }
  }

  lemma {:induction false} LastValueAbsent(src: seq<Field>, k: string, dflt: Json)
    requires !HasKey(src, k)
    ensures LastValue(src, k, dflt) == dflt
    decreases |src|
  {
    if src != [] {
      var p := src[..|src| - 1];
      assert !HasKey(p, k) by {
        forall i | 0 <= i < |p| ensures p[i].key != k { assert p[i] == src[i]; }
      }
      assert src[|src| - 1].key != k;
      LastValueAbsent(p, k, dflt);
    }
  }

  // ---------------------------------------------------------------------------
  // The merge, one override at a time
  // ---------------------------------------------------------------------------

  /**
   * One iteration of the `forEach` over the overrides. `findIndex` reads
   * `customDP.id` only when there is a record to compare with, so a null
   * override throws only then.
   */
  function MergeStep(st: MergeResult, custom: Json): (r: Result<MergeResult>)
  {
    if st.dataProducts == [] then Ok(st)
    else if IsNullish(custom) then Err(TypeError)
    else
      var i := FindById(st.dataProducts, Get(custom, "id"));
      if i < 0 then Ok(st)
      else
        var existing := st.dataProducts[i];
        var fields := ConflictFields(existing, OwnEntries(custom));
        var conflicts := st.conflicts + if |fields| > 0 then [Conflict(Get(custom, "id"), fields)] else [];
        Ok(MergeResult(st.dataProducts[i := Overlay(existing, custom)], conflicts, st.mergedCount + 1))
  }

  /** Some override is null or undefined. */
  predicate AnyNullish(cs: seq<Json>)
  {
    exists j :: 0 <= j < |cs| && IsNullish(cs[j])
  }

  /** The state after the overrides `cs`, in order. */
  function MergeAll(st: MergeResult, cs: seq<Json>): (r: Result<MergeResult>)
    ensures r.Err? <==> |st.dataProducts| > 0 && AnyNullish(cs)
    ensures r.Err? ==> r.error == TypeError
    ensures r.Ok? ==> |r.value.dataProducts| == |st.dataProducts|
    decreases |cs|
  {
    if cs == [] then Ok(st)
    else
      var p := cs[..|cs| - 1];
      assert AnyNullish(cs) <==> AnyNullish(p) || IsNullish(cs[|cs| - 1]) by {
        assert forall j :: 0 <= j < |p| ==> p[j] == cs[j];
      }
      var prev :- MergeAll(st, p);
      MergeStep(prev, cs[|cs| - 1])
  }

  /**
   * `mergeConfiguration(annotationData, customConfig)`: without a config or
   * its `dataProducts` the records come back as they are; a `dataProducts`
   * that is not an array has no `forEach` and throws.
   */
  function MergedConfiguration(annotationData: seq<Object>, customConfig: Json): (r: Result<MergeResult>)
  {
    var start := MergeResult(annotationData, [], 0);
    if !Truthy(customConfig) || !Truthy(Get(customConfig, "dataProducts")) then Ok(start)
    else
      var dps := Get(customConfig, "dataProducts");
      if !dps.Arr? then Err(TypeError)
      else MergeAll(start, dps.items)
  }

  /** The merge fails exactly when `dataProducts` is not an array, or some override is null while there are records. */
  lemma MergeFailures(annotationData: seq<Object>, customConfig: Json)
    ensures MergedConfiguration(annotationData, customConfig).Err? <==>
              Truthy(customConfig) && Truthy(Get(customConfig, "dataProducts")) &&
              (!Get(customConfig, "dataProducts").Arr? ||
               (|annotationData| > 0 && AnyNullish(Get(customConfig, "dataProducts").items)))
  {
  }

  /** Without a config or without its `dataProducts` nothing changes and nothing is counted. */
  lemma NoConfigNoChange(annotationData: seq<Object>, customConfig: Json)
    requires !Truthy(customConfig) || !Truthy(Get(customConfig, "dataProducts"))
    ensures MergedConfiguration(annotationData, customConfig) == Ok(MergeResult(annotationData, [], 0))
  {
  }

  // ---------------------------------------------------------------------------
  // What the merge does to each record
  // ---------------------------------------------------------------------------

  /** The overrides among `cs` that target record `i` of `records`. */
  function Targeting(records: seq<Object>, cs: seq<Json>, i: int): (r: seq<Json>)
    ensures |r| <= |cs|
    decreases |cs|
  {
    if cs == [] then []
    else
      var c := cs[|cs| - 1];
      Targeting(records, cs[..|cs| - 1], i) + if FindById(records, Get(c, "id")) == i then [c] else []
  }

  /** A record overlaid by the overrides `cs`, in order. */
  function OverlayAll(r: Object, cs: seq<Json>): Object
    decreases |cs|
  {
    if cs == [] then r else Overlay(OverlayAll(r, cs[..|cs| - 1]), cs[|cs| - 1])
  }

  /** The number of overrides among `cs` whose id matches a record. */
  function CountMatches(records: seq<Object>, cs: seq<Json>): (n: nat)
    ensures n <= |cs|
    decreases |cs|
  {
    if cs == [] then 0
    else CountMatches(records, cs[..|cs| - 1]) + if FindById(records, Get(cs[|cs| - 1], "id")) >= 0 then 1 else 0
  }

  /**
   * The merged list keeps every record in its place with its id; record `i`
   * is the original overlaid, in order, by exactly the overrides whose id
   * first matches it (so a record no override targets is unchanged), and
   * the count is the number of overrides that matched some record.
   */
  lemma {:induction false} MergeAllPerRecord(records: seq<Object>, cs: seq<Json>)
    requires forall j :: 0 <= j < |cs| ==> Parsed(cs[j])
    requires MergeAll(MergeResult(records, [], 0), cs).Ok?
    ensures Ids(MergeAll(MergeResult(records, [], 0), cs).value.dataProducts) == Ids(records)
    ensures forall i :: 0 <= i < |records| ==>
              MergeAll(MergeResult(records, [], 0), cs).value.dataProducts[i] == OverlayAll(records[i], Targeting(records, cs, i))
    ensures MergeAll(MergeResult(records, [], 0), cs).value.mergedCount == if records == [] then 0 else CountMatches(records, cs)
    decreases |cs|
  {
    var start := MergeResult(records, [], 0);
    if cs != [] {
      var p := cs[..|cs| - 1];
      var c := cs[|cs| - 1];
      MergeAllPerRecord(records, p);
      var prev := MergeAll(start, p).value;
      assert MergeAll(start, cs) == MergeStep(prev, c);
      if records != [] {
        var m := MergeAll(start, cs).value;
        MergeStepPerRecord(records, prev, c);
        MergeStepKeepsIds(records, prev, c);
        forall i | 0 <= i < |records|
          ensures m.dataProducts[i] == OverlayAll(records[i], Targeting(records, cs, i))
        {
          var t := Targeting(records, p, i);
          if FindById(records, Get(c, "id")) == i {
            assert Targeting(records, cs, i) == t + [c];
            assert (t + [c])[..|t|] == t;
          } else {
            assert Targeting(records, cs, i) == t;
          }
        }
      }
    }
  }

  /** One override changes only the record its id first matches, and counts the match. */
  lemma MergeStepPerRecord(records: seq<Object>, prev: MergeResult, c: Json)
    requires records != [] && Parsed(c) && Ids(prev.dataProducts) == Ids(records)
    requires MergeStep(prev, c).Ok?
    ensures MergeStep(prev, c).value.mergedCount == prev.mergedCount + (if FindById(records, Get(c, "id")) >= 0 then 1 else 0)
    ensures forall i :: 0 <= i < |records| ==>
              MergeStep(prev, c).value.dataProducts[i] ==
                if FindById(records, Get(c, "id")) == i then Overlay(prev.dataProducts[i], c) else prev.dataProducts[i]
  {
    FindBySameIds(prev.dataProducts, records, Get(c, "id"));
    var k := FindById(records, Get(c, "id"));
    if k >= 0 {
      assert MergeStep(prev, c).value.dataProducts == prev.dataProducts[k := Overlay(prev.dataProducts[k], c)];
    } else {
      assert MergeStep(prev, c).value == prev;
    }
  }

  /** One override keeps every record's id. */
  lemma MergeStepKeepsIds(records: seq<Object>, prev: MergeResult, c: Json)
    requires records != [] && Parsed(c) && Ids(prev.dataProducts) == Ids(records)
    requires MergeStep(prev, c).Ok?
    ensures Ids(MergeStep(prev, c).value.dataProducts) == Ids(records)
  {
    MergeStepPerRecord(records, prev, c);
    var k := FindById(records, Get(c, "id"));
    var m := MergeStep(prev, c).value;
    if k >= 0 {
      OverlayKeepsId(prev.dataProducts[k], c);
    }
    forall i | 0 <= i < |records| ensures Ids(m.dataProducts)[i] == Ids(records)[i] {
      assert Ids(m.dataProducts)[i] == Lookup(m.dataProducts[i], "id");
    }
  }

  /**
   * For a well-formed override document, `mergeConfiguration` keeps the
   * records' number, order and ids, overlays each record with the overrides
   * that target it, and counts the overrides that matched.
   */
  lemma MergedConfigurationPerRecord(annotationData: seq<Object>, customConfig: Json)
    requires MergedConfiguration(annotationData, customConfig).Ok?
    requires forall c :: c in OwnValues(Get(customConfig, "dataProducts")) ==> Parsed(c)
    ensures var m := MergedConfiguration(annotationData, customConfig).value;
            var cs := if Truthy(customConfig) && Truthy(Get(customConfig, "dataProducts")) then Get(customConfig, "dataProducts").items else [];
            Ids(m.dataProducts) == Ids(annotationData) &&
            (forall i :: 0 <= i < |annotationData| ==> m.dataProducts[i] == OverlayAll(annotationData[i], Targeting(annotationData, cs, i))) &&
            m.mergedCount == (if annotationData == [] then 0 else CountMatches(annotationData, cs))
  {
    var dps := Get(customConfig, "dataProducts");
    if Truthy(customConfig) && Truthy(dps) {
      var cs := dps.items;
      forall j | 0 <= j < |cs| ensures Parsed(cs[j]) {
        assert OwnValues(dps)[j] == cs[j];
      }
      MergeAllPerRecord(annotationData, cs);
    }
  }

  /** Every reported conflict names a changed property other than `id` that was defined before. */
  predicate ConflictsWellFormed(conflicts: seq<Conflict>)
  {
    forall i :: 0 <= i < |conflicts| ==>
      |conflicts[i].fields| > 0 &&
      forall f :: f in conflicts[i].fields ==>
        f.field != "id" && f.previousValue != Undef && !StrictEqualsFresh(f.previousValue, f.customValue)
  }

  /** The conflicts are well formed and there is at most one per matched override. */
  lemma {:induction false} MergeAllConflicts(st: MergeResult, cs: seq<Json>)
    requires ConflictsWellFormed(st.conflicts) && |st.conflicts| <= st.mergedCount
    requires MergeAll(st, cs).Ok?
    ensures ConflictsWellFormed(MergeAll(st, cs).value.conflicts)
    ensures |MergeAll(st, cs).value.conflicts| <= MergeAll(st, cs).value.mergedCount
    decreases |cs|
  {
    if cs != [] {
      MergeAllConflicts(st, cs[..|cs| - 1]);
      var prev := MergeAll(st, cs[..|cs| - 1]).value;
      var c := cs[|cs| - 1];
      if prev.dataProducts != [] && !IsNullish(c) {
        var i := FindById(prev.dataProducts, Get(c, "id"));
        if i >= 0 {
          ConflictFieldsSpec(prev.dataProducts[i], OwnEntries(c));
        }
      }
    }
  }

  // ---------------------------------------------------------------------------
  // The source's loops
  // ---------------------------------------------------------------------------

  /** `Object.keys(customDP).forEach(...)`: collects the conflicting properties. */
  method CollectConflicts(existing: Object, entries: seq<Field>) returns (conflictFields: seq<ConflictField>)
    ensures conflictFields == ConflictFields(existing, entries)
  {
    conflictFields := [];
    for i := 0 to |entries|
      invariant conflictFields == ConflictFields(existing, entries[..i])
    {
      assert entries[..i + 1][..i] == entries[..i];
      var f := entries[i];
      if IsConflict(existing, f) {
        conflictFields := conflictFields + [Describe(existing, f)];
      }
    }
    assert entries[..|entries|] == entries;
  }

  /** `mergeConfiguration(annotationData, customConfig)` */
  method MergeConfiguration(annotationData: seq<Object>, customConfig: Json) returns (r: Result<MergeResult>)
    ensures r == MergedConfiguration(annotationData, customConfig)
  {
    if !Truthy(customConfig) || !Truthy(Get(customConfig, "dataProducts")) {
      return Ok(MergeResult(annotationData, [], 0));
    }
    var dps := Get(customConfig, "dataProducts");
    if !dps.Arr? {
      return Err(TypeError);
    }
    var items := dps.items;
    var state := MergeResult(annotationData, [], 0);
    assert MergeAll(state, items[..0]) == Ok(state) by {
      assert items[..0] == [];
    }
    for n := 0 to |items|
      invariant MergeAll(MergeResult(annotationData, [], 0), items[..n]) == Ok(state)
    {
      assert items[..n + 1][..n] == items[..n];
      var next := ApplyOverride(state, items[n]);
      if next.Err? {
        return next;
      }
      state := next.value;
    }
    assert items[..|items|] == items;
    return Ok(state);
  }

  /** The body of the `forEach`: one override applied to the merged list, the conflicts and the count. */
  method ApplyOverride(state: MergeResult, customDP: Json) returns (r: Result<MergeResult>)
    ensures r == MergeStep(state, customDP)
  {
    var merged, conflicts, mergedCount := state.dataProducts, state.conflicts, state.mergedCount;
    if merged == [] {
      return Ok(state);
    }
    if IsNullish(customDP) {
      return Err(TypeError);
    }
    var existingIndex := FindById(merged, Get(customDP, "id"));
    if existingIndex < 0 {
      return Ok(state);
    }
    var existing := merged[existingIndex];
    var conflictFields := CollectConflicts(existing, OwnEntries(customDP));
    if |conflictFields| > 0 {
      conflicts := conflicts + [Conflict(Get(customDP, "id"), conflictFields)];
    } else {
      assert conflicts == conflicts + [];
    }
    merged := merged[existingIndex := Overlay(existing, customDP)];
    mergedCount := mergedCount + 1;
    return Ok(MergeResult(merged, conflicts, mergedCount));
  }
}
