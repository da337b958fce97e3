/**
 * The override stage (lib/dataProducts/processors/CustomOrdProcessor.js):
 * the records merged with the override document's `dataProducts`, then
 * records whose `source` is "custom" re-tagged with the custom source. The
 * document is an input here; loading it from a file is not part of this
 * model.
 */
module CustomOrd {
  import opened Js
  import opened Constants
  import opened ConfigMerge

  /** No document, no `dataProducts`, or an empty list: the records pass through. */
  predicate NoOverrides(customConfig: Json)
  {
    !Truthy(customConfig) || !Truthy(Get(customConfig, "dataProducts")) ||
    Length(Get(customConfig, "dataProducts")) == Num(0)
  }

  /** `dp.source === "custom" ? { ...dp, source: SOURCE_TYPES.CUSTOM } : dp` */
  function Retag(dp: Object): Object
  {
    if Lookup(dp, "source") == Str("custom") then Set(dp, "source", Str(SOURCE_CUSTOM)) else dp
  }

  function RetagAll(records: seq<Object>): (out: seq<Object>)
    ensures |out| == |records|
    ensures forall i :: 0 <= i < |records| ==> out[i] == Retag(records[i])
  {
    seq(|records|, i requires 0 <= i < |records| => Retag(records[i]))
  }

  /**
   * `process(dataProducts, context)` with the loaded document as
   * `customConfig`. After the merge, every override is looked up among the
   * records and, when none matches, its `id` goes into a log message: a
   * null or undefined override that the merge let through (there were no
   * records) throws there.
   */
  function Process(records: seq<Object>, customConfig: Json): Result<seq<Object>>
  {
    if NoOverrides(customConfig) then Ok(records)
    else
      var result :- MergedConfiguration(records, customConfig);
      var overrides := Get(customConfig, "dataProducts");
      if overrides.Arr? && AnyNullish(overrides.items) then Err(TypeError)
      else Ok(RetagAll(result.dataProducts))
  }

  /**
   * Over every list of records, the stage throws exactly when there are
   * overrides and either the merge throws or one of them is null or
   * undefined; the exception is then a TypeError.
   */
  lemma ProcessThrows(records: seq<Object>, customConfig: Json)
    ensures Process(records, customConfig).Err? <==>
              !NoOverrides(customConfig) &&
              (MergedConfiguration(records, customConfig).Err? || AnyNullish(Get(customConfig, "dataProducts").items))
    ensures Process(records, customConfig).Err? ==> Process(records, customConfig).error == TypeError
  {
    if !NoOverrides(customConfig) && MergedConfiguration(records, customConfig).Ok? {
      MergeFailures(records, customConfig);
    }
  }

  /** With no records and a null override in the document, the stage throws. */
  lemma NullOverrideWithoutRecordsThrows(customConfig: Json, j: nat)
    requires Truthy(customConfig) && Get(customConfig, "dataProducts").Arr?
    requires j < |Get(customConfig, "dataProducts").items| && IsNullish(Get(customConfig, "dataProducts").items[j])
    ensures MergedConfiguration([], customConfig).Ok?
    ensures Process([], customConfig) == Err(TypeError)
  {
    ProcessThrows([], customConfig);
  }

  /**
   * The custom source constant is the literal the merge writes, so the
   * re-tagging changes no record.
   */
  lemma RetagIsIdentity(dp: Object)
    ensures Retag(dp) == dp
  {
    if Lookup(dp, "source") == Str("custom") {
      SetSame(dp, "source", Str(SOURCE_CUSTOM));
    }
  }

  lemma RetagAllIsIdentity(records: seq<Object>)
    ensures RetagAll(records) == records
  {
    forall i | 0 <= i < |records| ensures RetagAll(records)[i] == records[i] {
      RetagIsIdentity(records[i]);
    }
  }

  /** Without overrides the input list comes back as it is. */
  lemma NoOverridesUnchanged(records: seq<Object>, customConfig: Json)
    requires NoOverrides(customConfig)
    ensures Process(records, customConfig) == Ok(records)
  {
  }

  /**
   * The stage throws exactly when the merge does; otherwise it keeps every
   * record in its place with its id, so an override that matches no record
   * adds none; a record keeps every property no override targeting it
   * names, takes the value the last of them gives, and `source` becomes
   * the override's source or "custom".
   */
  lemma ProcessPerRecord(records: seq<Object>, customConfig: Json, i: nat, k: string)
    requires !NoOverrides(customConfig)
    requires forall c :: c in OwnValues(Get(customConfig, "dataProducts")) ==> Parsed(c)
    requires i < |records|
    ensures Process(records, customConfig).Err? <==> MergedConfiguration(records, customConfig).Err?
    ensures Process(records, customConfig).Ok? ==>
              var out := Process(records, customConfig).value;
              var cs := Targeting(records, Get(customConfig, "dataProducts").items, i);
              |out| == |records| && Ids(out) == Ids(records) &&
              Lookup(out[i], k) == Lookup(OverlayAll(records[i], cs), k) &&
              (cs == [] ==> out[i] == records[i])
  {
    MergeFailures(records, customConfig);
    if Process(records, customConfig).Ok? {
      MergedConfigurationPerRecord(records, customConfig);
      RetagAllIsIdentity(MergedConfiguration(records, customConfig).value.dataProducts);
    }
  }

  /**
   * A record one override targets takes every property the override names
   * (other than `source`), keeps every other one, and ends with the
   * override's source or "custom".
   */
  lemma SingleOverride(existing: Object, custom: Json, k: string)
    requires custom.Obj? && UniqueKeys(custom.fields)
    ensures Lookup(Retag(OverlayAll(existing, [custom])), "source") == Or(Get(custom, "source"), Str("custom"))
    ensures k != "source" && HasKey(custom.fields, k) ==> Lookup(Retag(OverlayAll(existing, [custom])), k) == Lookup(custom.fields, k)
    ensures k != "source" && !HasKey(custom.fields, k) ==> Lookup(Retag(OverlayAll(existing, [custom])), k) == Lookup(existing, k)
  {
    assert [custom][..0] == [];
    assert OverlayAll(existing, [custom]) == Overlay(existing, custom);
    RetagIsIdentity(Overlay(existing, custom));
    OverlayProperties(existing, custom, "source");
    if k != "source" {
      OverlayObject(existing, custom, k);
    }
  }
}
