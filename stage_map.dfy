/**
 * The per-record map the enrichment stages share: each record is enriched
 * on its own, and a record whose enrichment throws falls back to itself.
 */
module StageMap {
  import opened Js

  /**
   * `records.map(dp => { try { return enrich(dp) } catch { return fallback(dp) } })`.
   * The fallback is the record itself, except where the enrichment wrote
   * into objects the record shares with its copy.
   */
  function MapGuarded(records: seq<Object>, enrich: Object -> Result<Object>, fallback: Object -> Object): (out: seq<Object>)
    ensures |out| == |records|
    ensures forall i :: 0 <= i < |records| && enrich(records[i]).Ok? ==> out[i] == enrich(records[i]).value
    ensures forall i :: 0 <= i < |records| && enrich(records[i]).Err? ==> out[i] == fallback(records[i])
  {
    seq(|records|, i requires 0 <= i < |records| => if enrich(records[i]).Ok? then enrich(records[i]).value else fallback(records[i]))
  }

  /** Record `i`'s enrichment does not depend on its siblings. */
  lemma MapGuardedSiblings(records: seq<Object>, enrich: Object -> Result<Object>, fallback: Object -> Object, i: nat, r: Object)
    requires i < |records|
    ensures MapGuarded(records[i := r], enrich, fallback)[..i] == MapGuarded(records, enrich, fallback)[..i]
    ensures MapGuarded(records[i := r], enrich, fallback)[i + 1..] == MapGuarded(records, enrich, fallback)[i + 1..]
  {
  }

  /**
   * The map as the six stages with a `this.handleError(...)` call in their
   * `catch` write it: no such method exists, so the call itself throws a
   * TypeError out of the `catch`, out of `map` and out of the stage.
   */
  function MapAsWritten(records: seq<Object>, enrich: Object -> Result<Object>): (r: Result<seq<Object>>)
  {
    if exists i :: 0 <= i < |records| && enrich(records[i]).Err? then Err(TypeError)
    else Ok(seq(|records|, i requires 0 <= i < |records| => enrich(records[i]).value))
  }

  /**
   * Where no enrichment throws, the map as written and the guarded map
   * agree; as soon as one record's enrichment throws, the map as written
   * fails for all records, where the guarded map keeps every sibling.
   */
  lemma AsWrittenVersusGuarded(records: seq<Object>, enrich: Object -> Result<Object>, fallback: Object -> Object)
    ensures (forall i :: 0 <= i < |records| ==> enrich(records[i]).Ok?) ==>
              MapAsWritten(records, enrich) == Ok(MapGuarded(records, enrich, fallback))
    ensures (exists i :: 0 <= i < |records| && enrich(records[i]).Err?) ==>
              MapAsWritten(records, enrich) == Err(TypeError)
  {
    if forall i :: 0 <= i < |records| ==> enrich(records[i]).Ok? {
      var guarded := MapGuarded(records, enrich, fallback);
      assert MapAsWritten(records, enrich).value == guarded;
    }
  }
}
