/**
 * Merging tag lists without duplicate keys (`mergeUniqueTags`,
 * lib/dataProducts/utils.js). The source fills a `Map` keyed by each tag's
 * `key`: existing tags are set one after the other, so a later existing tag
 * replaces an earlier one with the same key in its place; new tags are added
 * only under keys the map does not hold yet. The result is the map's values
 * in insertion order.
 */
module TagMerge {
  import opened Js

  /** `tag.key` */
  function TagKey(t: Json): Json
  {
    Get(t, "key")
  }

  /** The position of the tag with key `k` in `m`, or -1. */
  function IndexOfKey(m: seq<Json>, k: Json): (i: int)
    ensures -1 <= i < |m|
    ensures i >= 0 ==> TagKey(m[i]) == k && forall j :: 0 <= j < i ==> TagKey(m[j]) != k
    ensures i < 0 ==> forall j :: 0 <= j < |m| ==> TagKey(m[j]) != k
  {
    if m == [] then -1
    else if TagKey(m[0]) == k then 0
    else
      var i := IndexOfKey(m[1..], k);
      if i < 0 then -1 else i + 1
  }

  predicate HasTagKey(m: seq<Json>, k: Json)
  {
    IndexOfKey(m, k) >= 0
  }

  /** No two tags share a key. */
  predicate DistinctKeys(m: seq<Json>)
  {
    forall i, j :: 0 <= i < j < |m| ==> TagKey(m[i]) != TagKey(m[j])
  }

  /** `tagMap.set(tag.key, tag)` */
  function SetTag(m: seq<Json>, t: Json): seq<Json>
  {
    var i := IndexOfKey(m, TagKey(t));
    if i >= 0 then m[i := t] else m + [t]
  }

  /** `if (!tagMap.has(tag.key)) tagMap.set(tag.key, tag)` */
  function AddTag(m: seq<Json>, t: Json): seq<Json>
  {
    if HasTagKey(m, TagKey(t)) then m else m + [t]
  }

  /** The map after setting every tag of `ts` in order. */
  function SetTags(m: seq<Json>, ts: seq<Json>): seq<Json>
    decreases |ts|
  {
    if ts == [] then m else SetTag(SetTags(m, ts[..|ts| - 1]), ts[|ts| - 1])
  }

  /** The map after adding every tag of `ts` in order. */
  function AddTags(m: seq<Json>, ts: seq<Json>): seq<Json>
    decreases |ts|
  {
    if ts == [] then m else AddTag(AddTags(m, ts[..|ts| - 1]), ts[|ts| - 1])
  }

  /** What `mergeUniqueTags(existing, newTags)` returns when no tag is null or undefined. */
  function UniqueMerge(existing: seq<Json>, newTags: seq<Json>): seq<Json>
  {
    AddTags(SetTags([], existing), newTags)
  }

  /** The last tag of `ts` with key `k`. */
  function LastWithKey(ts: seq<Json>, k: Json): Json
    requires HasTagKey(ts, k)
    decreases |ts|
  {
    if TagKey(ts[|ts| - 1]) == k then ts[|ts| - 1]
    else
      assert HasTagKey(ts[..|ts| - 1], k) by {
        var i := IndexOfKey(ts, k);
        assert TagKey(ts[..|ts| - 1][i]) == k;
      }
      LastWithKey(ts[..|ts| - 1], k)
  }

  // ---------------------------------------------------------------------------
  // One step at a time
  // ---------------------------------------------------------------------------

  lemma SetTagProps(m: seq<Json>, t: Json)
    requires DistinctKeys(m)
    ensures DistinctKeys(SetTag(m, t))
    ensures forall k :: HasTagKey(SetTag(m, t), k) <==> HasTagKey(m, k) || k == TagKey(t)
    ensures HasTagKey(SetTag(m, t), TagKey(t)) && SetTag(m, t)[IndexOfKey(SetTag(m, t), TagKey(t))] == t
    ensures forall k :: k != TagKey(t) && HasTagKey(m, k) ==>
              IndexOfKey(SetTag(m, t), k) == IndexOfKey(m, k) && SetTag(m, t)[IndexOfKey(m, k)] == m[IndexOfKey(m, k)]
  {
    var r := SetTag(m, t);
    var i := IndexOfKey(m, TagKey(t));
    forall k ensures HasTagKey(r, k) <==> HasTagKey(m, k) || k == TagKey(t) {
      if HasTagKey(m, k) {
        var j := IndexOfKey(m, k);
        if k != TagKey(t) { assert TagKey(r[j]) == k; } else { assert TagKey(r[if i >= 0 then i else |m|]) == k; }
      }
      if k == TagKey(t) {
        assert TagKey(r[if i >= 0 then i else |m|]) == k;
      }
      if HasTagKey(r, k) && k != TagKey(t) {
        var j := IndexOfKey(r, k);
        assert TagKey(m[j]) == k;
      }
    }
    assert r[if i >= 0 then i else |m|] == t;
  }

  lemma AddTagProps(m: seq<Json>, t: Json)
    requires DistinctKeys(m)
    ensures DistinctKeys(AddTag(m, t))
    ensures m <= AddTag(m, t)
    ensures forall k :: HasTagKey(AddTag(m, t), k) <==> HasTagKey(m, k) || k == TagKey(t)
    ensures forall k :: HasTagKey(m, k) ==> IndexOfKey(AddTag(m, t), k) == IndexOfKey(m, k)
    ensures !HasTagKey(m, TagKey(t)) ==>
              HasTagKey(AddTag(m, t), TagKey(t)) && AddTag(m, t)[IndexOfKey(AddTag(m, t), TagKey(t))] == t
  {
    var r := AddTag(m, t);
    forall k ensures HasTagKey(r, k) <==> HasTagKey(m, k) || k == TagKey(t) {
      if HasTagKey(m, k) {
        var j := IndexOfKey(m, k);
        assert TagKey(r[j]) == k;
      }
      if k == TagKey(t) && !HasTagKey(m, k) {
        assert TagKey(r[|m|]) == k;
      }
      if HasTagKey(r, k) && !HasTagKey(m, k) {
        var j := IndexOfKey(r, k);
        assert j == |m|;
      }
    }
    forall k | HasTagKey(m, k) ensures IndexOfKey(r, k) == IndexOfKey(m, k) {
      var j := IndexOfKey(m, k);
      assert TagKey(r[j]) == k;
    }
    if !HasTagKey(m, TagKey(t)) {
      assert TagKey(r[|m|]) == TagKey(t);
    }
  }

  // ---------------------------------------------------------------------------
  // Properties of the merge
  // ---------------------------------------------------------------------------

  /** Setting tags one after the other keeps keys distinct and collects their keys. */
  lemma {:induction false} SetTagsProps(m: seq<Json>, ts: seq<Json>)
    requires DistinctKeys(m)
    ensures DistinctKeys(SetTags(m, ts))
    ensures forall k :: HasTagKey(SetTags(m, ts), k) <==> HasTagKey(m, k) || HasTagKey(ts, k)
    decreases |ts|
  {
    if ts != [] {
      var p := ts[..|ts| - 1];
      var t := ts[|ts| - 1];
      SetTagsProps(m, p);
      SetTagProps(SetTags(m, p), t);
      assert ts == p + [t];
      KeysOfSnoc(p, t);
    }
  }

  /** The keys of `p + [t]`: those of `p` and the key of `t`. */
  lemma KeysOfSnoc(p: seq<Json>, t: Json)
    ensures forall k :: HasTagKey(p + [t], k) <==> HasTagKey(p, k) || k == TagKey(t)
  {
    var ts := p + [t];
    forall k ensures HasTagKey(ts, k) <==> HasTagKey(p, k) || k == TagKey(t) {
      if HasTagKey(p, k) {
        assert TagKey(ts[IndexOfKey(p, k)]) == k;
      }
      if k == TagKey(t) {
        assert TagKey(ts[|ts| - 1]) == k;
      }
      if HasTagKey(ts, k) && k != TagKey(t) {
        var j := IndexOfKey(ts, k);
        assert TagKey(p[j]) == k;
      }
    }
  }

  /** Adding tags only appends, keeps keys distinct and collects their keys. */
  lemma {:induction false} AddTagsProps(m: seq<Json>, ts: seq<Json>)
    requires DistinctKeys(m)
    ensures DistinctKeys(AddTags(m, ts))
    ensures m <= AddTags(m, ts)
    ensures forall k :: HasTagKey(AddTags(m, ts), k) <==> HasTagKey(m, k) || HasTagKey(ts, k)
    ensures forall k :: HasTagKey(m, k) ==> IndexOfKey(AddTags(m, ts), k) == IndexOfKey(m, k)
    decreases |ts|
  {
    if ts != [] {
      var p := ts[..|ts| - 1];
      var t := ts[|ts| - 1];
      AddTagsProps(m, p);
      AddTagProps(AddTags(m, p), t);
      assert ts == p + [t];
      KeysOfSnoc(p, t);
    }
  }

  /** The merged tags have distinct keys: exactly the keys of both inputs. */
  lemma UniqueMergeKeys(existing: seq<Json>, newTags: seq<Json>)
    ensures DistinctKeys(UniqueMerge(existing, newTags))
    ensures forall k :: HasTagKey(UniqueMerge(existing, newTags), k) <==> HasTagKey(existing, k) || HasTagKey(newTags, k)
  {
    SetTagsProps([], existing);
    AddTagsProps(SetTags([], existing), newTags);
  }

  /** Setting tags leaves, under each key, the last of them with that key. */
  lemma {:induction false} SetTagsLastWins(ts: seq<Json>, k: Json)
    requires HasTagKey(ts, k)
    ensures HasTagKey(SetTags([], ts), k)
    ensures SetTags([], ts)[IndexOfKey(SetTags([], ts), k)] == LastWithKey(ts, k)
    decreases |ts|
  {
    var p := ts[..|ts| - 1];
    var t := ts[|ts| - 1];
    SetTagsProps([], p);
    SetTagsProps([], ts);
    SetTagProps(SetTags([], p), t);
    if TagKey(t) != k {
      assert HasTagKey(p, k) by {
        var i := IndexOfKey(ts, k);
        assert TagKey(p[i]) == k;
      }
      SetTagsLastWins(p, k);
    }
  }

  /**
   * Under a key the existing tags have, the merge keeps the last existing tag
   * with that key: new tags never replace existing ones.
   */
  lemma ExistingTagsWin(existing: seq<Json>, newTags: seq<Json>, k: Json)
    requires HasTagKey(existing, k)
    ensures HasTagKey(UniqueMerge(existing, newTags), k)
    ensures UniqueMerge(existing, newTags)[IndexOfKey(UniqueMerge(existing, newTags), k)] == LastWithKey(existing, k)
  {
    var m := SetTags([], existing);
    SetTagsProps([], existing);
    SetTagsLastWins(existing, k);
    AddTagsProps(m, newTags);
    var i := IndexOfKey(m, k);
    assert UniqueMerge(existing, newTags)[i] == m[i];
  }

  /** Adding tags to a map without key `k` stores the first of them with that key. */
  lemma {:induction false} AddTagsFirstWins(m: seq<Json>, ts: seq<Json>, k: Json)
    requires DistinctKeys(m) && !HasTagKey(m, k) && HasTagKey(ts, k)
    ensures HasTagKey(AddTags(m, ts), k)
    ensures AddTags(m, ts)[IndexOfKey(AddTags(m, ts), k)] == ts[IndexOfKey(ts, k)]
    decreases |ts|
  {
    var p := ts[..|ts| - 1];
    var t := ts[|ts| - 1];
    AddTagsProps(m, p);
    AddTagProps(AddTags(m, p), t);
    if HasTagKey(p, k) {
      AddTagsFirstWins(m, p, k);
      assert IndexOfKey(ts, k) == IndexOfKey(p, k) by {
        var j := IndexOfKey(p, k);
        assert TagKey(ts[j]) == k;
        forall i | 0 <= i < j ensures TagKey(ts[i]) != k { assert ts[i] == p[i]; }
      }
    } else {
      assert IndexOfKey(ts, k) == |ts| - 1 by {
        forall i | 0 <= i < |ts| - 1 ensures TagKey(ts[i]) != k { assert ts[i] == p[i]; }
        var j := IndexOfKey(ts, k);
        assert j == |ts| - 1;
      }
    }
  }

  /** Under a key only the new tags have, the merge keeps the first new tag with that key. */
  lemma FirstNewTagWins(existing: seq<Json>, newTags: seq<Json>, k: Json)
    requires !HasTagKey(existing, k) && HasTagKey(newTags, k)
    ensures HasTagKey(UniqueMerge(existing, newTags), k)
    ensures UniqueMerge(existing, newTags)[IndexOfKey(UniqueMerge(existing, newTags), k)] == newTags[IndexOfKey(newTags, k)]
  {
    SetTagsProps([], existing);
    AddTagsFirstWins(SetTags([], existing), newTags, k);
  }

  /** Setting tags with distinct keys into an empty map reproduces them. */
  lemma {:induction false} SetTagsDistinct(ts: seq<Json>)
    requires DistinctKeys(ts)
    ensures SetTags([], ts) == ts
    decreases |ts|
  {
    if ts != [] {
      var p := ts[..|ts| - 1];
      SetTagsDistinct(p);
      forall j | 0 <= j < |p| ensures TagKey(p[j]) != TagKey(ts[|ts| - 1]) {
        assert p[j] == ts[j];
      }
    }
  }

  /** Adding tags whose keys are all present changes nothing. */
  lemma {:induction false} AddTagsPresent(m: seq<Json>, ts: seq<Json>)
    requires forall i :: 0 <= i < |ts| ==> HasTagKey(m, TagKey(ts[i]))
    ensures AddTags(m, ts) == m
    decreases |ts|
  {
    if ts != [] {
      AddTagsPresent(m, ts[..|ts| - 1]);
    }
  }

  /** Merging the same new tags a second time changes nothing. */
  lemma {:induction false} UniqueMergeIdempotent(existing: seq<Json>, newTags: seq<Json>)
    ensures UniqueMerge(UniqueMerge(existing, newTags), newTags) == UniqueMerge(existing, newTags)
  {
    var r := UniqueMerge(existing, newTags);
    UniqueMergeKeys(existing, newTags);
    SetTagsDistinct(r);
    forall i | 0 <= i < |newTags| ensures HasTagKey(r, TagKey(newTags[i])) {
      assert HasTagKey(newTags, TagKey(newTags[i])) by {
        var j := IndexOfKey(newTags, TagKey(newTags[i]));
        assert j >= 0 || TagKey(newTags[i]) != TagKey(newTags[i]);
      }
    }
    AddTagsPresent(r, newTags);
  }

  /** The merge lists the existing keys first, in the order they first appear. */
  lemma ExistingTagsComeFirst(existing: seq<Json>, newTags: seq<Json>)
    ensures SetTags([], existing) <= UniqueMerge(existing, newTags)
  {
    SetTagsProps([], existing);
    AddTagsProps(SetTags([], existing), newTags);
  }

  // ---------------------------------------------------------------------------
  // The source's loops
  // ---------------------------------------------------------------------------

  /** The `Map` the loops fill: key to position in `values`. */
  predicate IndexOf(index: map<Json, nat>, values: seq<Json>)
  {
    DistinctKeys(values) &&
    (forall k :: k in index ==> index[k] < |values| && TagKey(values[index[k]]) == k) &&
    (forall j :: 0 <= j < |values| ==> TagKey(values[j]) in index)
  }

  lemma IndexAgrees(index: map<Json, nat>, values: seq<Json>, k: Json)
    requires IndexOf(index, values)
    ensures k in index <==> HasTagKey(values, k)
    ensures k in index ==> IndexOfKey(values, k) == index[k]
  {
    if k in index {
      assert TagKey(values[index[k]]) == k;
    }
    if HasTagKey(values, k) {
      assert TagKey(values[IndexOfKey(values, k)]) in index;
    }
  }

  /** One `tagMap.set` under a key the map holds: the tag replaces the one in its place. */
  lemma SetStepPresent(index: map<Json, nat>, values: seq<Json>, tag: Json)
    requires IndexOf(index, values) && TagKey(tag) in index
    ensures IndexOf(index, values[index[TagKey(tag)] := tag])
    ensures values[index[TagKey(tag)] := tag] == SetTag(values, tag)
  {
    IndexAgrees(index, values, TagKey(tag));
    SetTagProps(values, tag);
  }

  /** One `tagMap.set` under a new key: the tag goes to the end. */
  lemma SetStepAbsent(index: map<Json, nat>, values: seq<Json>, tag: Json)
    requires IndexOf(index, values) && TagKey(tag) !in index
    ensures IndexOf(index[TagKey(tag) := |values|], values + [tag])
    ensures values + [tag] == SetTag(values, tag)
  {
    var k := TagKey(tag);
    IndexAgrees(index, values, k);
    SetTagProps(values, tag);
    var index' := index[k := |values|];
    var values' := values + [tag];
    forall j | 0 <= j < |values'| ensures TagKey(values'[j]) in index' {
      if j < |values| { assert values'[j] == values[j]; }
    }
  }

  /** One guarded `tagMap.set` of a new tag. */
  lemma AddStep(index: map<Json, nat>, values: seq<Json>, tag: Json)
    requires IndexOf(index, values)
    ensures TagKey(tag) in index ==> values == AddTag(values, tag)
    ensures TagKey(tag) !in index ==>
              IndexOf(index[TagKey(tag) := |values|], values + [tag]) && values + [tag] == AddTag(values, tag)
  {
    var k := TagKey(tag);
    IndexAgrees(index, values, k);
    if k !in index {
      AddStepNew(index, values, tag);
    }
  }

  /** Adding a tag under a key the index lacks: it goes at the end, under the next position. */
  lemma AddStepNew(index: map<Json, nat>, values: seq<Json>, tag: Json)
    requires IndexOf(index, values) && TagKey(tag) !in index
    ensures IndexOf(index[TagKey(tag) := |values|], values + [tag])
  {
    var k := TagKey(tag);
    var index' := index[k := |values|];
    var values' := values + [tag];
    forall i, j | 0 <= i < j < |values'| ensures TagKey(values'[i]) != TagKey(values'[j]) {
      assert values'[i] == values[i];
      if j < |values| {
        assert values'[j] == values[j];
      } else {
        assert TagKey(values[i]) in index;
      }
    }
    forall k' | k' in index' ensures index'[k'] < |values'| && TagKey(values'[index'[k']]) == k' {
      if k' != k {
        assert values'[index[k']] == values[index[k']];
      }
    }
    forall j | 0 <= j < |values'| ensures TagKey(values'[j]) in index' {
      if j < |values| {
        assert values'[j] == values[j];
      }
    }
  }

  /** What `mergeUniqueTags` returns or throws, for use where it is called. */
  function MergedTags(existingTags: seq<Json>, newTags: seq<Json>): Result<seq<Json>>
  {
    if exists t :: t in existingTags + newTags && IsNullish(t) then Err(TypeError)
    else Ok(UniqueMerge(existingTags, newTags))
  }

  /**
   * `mergeUniqueTags(existingTags, newTags)`: reading the key of a null or
   * undefined tag throws; otherwise the result is `UniqueMerge`.
   */
  method MergeUniqueTags(existingTags: seq<Json>, newTags: seq<Json>) returns (r: Result<seq<Json>>)
    ensures r.Err? <==> exists t :: t in existingTags + newTags && IsNullish(t)
    ensures r.Ok? ==> r.value == UniqueMerge(existingTags, newTags)
    ensures r == MergedTags(existingTags, newTags)
  {
    var values: seq<Json> := [];
    var index: map<Json, nat> := map[];
    for i := 0 to |existingTags|
      invariant values == SetTags([], existingTags[..i])
      invariant IndexOf(index, values)
      invariant forall j :: 0 <= j < i ==> !IsNullish(existingTags[j])
    {
      var tag := existingTags[i];
      if IsNullish(tag) {
        assert tag in existingTags + newTags;
        return Err(TypeError);
      }
      var k := TagKey(tag);
      assert existingTags[..i + 1][..i] == existingTags[..i];
      if k in index {
        SetStepPresent(index, values, tag);
        values := values[index[k] := tag];
      } else {
        SetStepAbsent(index, values, tag);
        index := index[k := |values|];
        values := values + [tag];
      }
    }
    assert existingTags[..|existingTags|] == existingTags;
    r := AddNewTags(index, values, newTags);
    if r.Err? {
      var j :| 0 <= j < |newTags| && IsNullish(newTags[j]);
      assert newTags[j] in existingTags + newTags;
      return;
    }
    forall t | t in existingTags + newTags ensures !IsNullish(t) {
      if t in existingTags {
        var j :| 0 <= j < |existingTags| && existingTags[j] == t;
      } else {
        var j :| 0 <= j < |newTags| && newTags[j] == t;
      }
    }
  }

  /** The second loop of `mergeUniqueTags`: the new tags are added to the filled map. */
  method AddNewTags(index: map<Json, nat>, values: seq<Json>, newTags: seq<Json>) returns (r: Result<seq<Json>>)
    requires IndexOf(index, values)
    ensures r.Err? <==> exists j :: 0 <= j < |newTags| && IsNullish(newTags[j])
    ensures r.Ok? ==> r.value == AddTags(values, newTags)
    ensures r.Err? ==> r == Err(TypeError)
  {
    var idx: map<Json, nat> := index;
    var vals: seq<Json> := values;
    for i := 0 to |newTags|
      invariant vals == AddTags(values, newTags[..i])
      invariant IndexOf(idx, vals)
      invariant forall j :: 0 <= j < i ==> !IsNullish(newTags[j])
    {
      var tag := newTags[i];
      if IsNullish(tag) {
        return Err(TypeError);
      }
      var k := TagKey(tag);
      AddStep(idx, vals, tag);
      assert newTags[..i + 1][..i] == newTags[..i];
      if k !in idx {
        idx := idx[k := |vals|];
        vals := vals + [tag];
      }
    }
    assert newTags[..|newTags|] == newTags;
    return Ok(vals);
  }
}
